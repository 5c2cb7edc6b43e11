/** The settings store slice: the user's timezone, date format, currency
    and language, with the loading and error flags of their persistence. */
module SettingsSlice {
  import opened Wrappers

  datatype State = State(
    timezone: string,
    dateFormat: string,
    currency: string,
    language: string,
    loading: bool,
    error: Option<string>)

  /** A partial state; `error` may be present and null. */
  datatype Patch = Patch(
    timezone: Option<string>,
    dateFormat: Option<string>,
    currency: Option<string>,
    language: Option<string>,
    loading: Option<bool>,
    error: Option<Option<string>>)

  const EmptyPatch: Patch := Patch(None, None, None, None, None, None)

  /** The state at start-up: the timezone the platform detects, or "UTC"
      when it detects none or an empty name, and fixed defaults otherwise. */
  function InitialState(detected: Option<string>): (s: State)
    ensures s.timezone != ""
    ensures s.timezone == "UTC" || Some(s.timezone) == detected
    ensures detected.None? ==> s.timezone == "UTC"
    ensures s.dateFormat == "MM/DD/YYYY" && s.currency == "USD" && s.language == "en"
    ensures !s.loading && s.error.None?
  {
    var tz := if detected.Some? && detected.value != "" then detected.value else "UTC";
    State(tz, "MM/DD/YYYY", "USD", "en", false, None)
  }

  /** `Object.assign(state, patch)`. */
  function Assign(s: State, p: Patch): State {
    State(p.timezone.GetOr(s.timezone), p.dateFormat.GetOr(s.dateFormat), p.currency.GetOr(s.currency),
      p.language.GetOr(s.language), p.loading.GetOr(s.loading), p.error.GetOr(s.error))
  }

  /** Two patches in a row, the later one winning field by field. */
  function Then(p: Patch, q: Patch): Patch {
    Patch(if q.timezone.Some? then q.timezone else p.timezone,
      if q.dateFormat.Some? then q.dateFormat else p.dateFormat,
      if q.currency.Some? then q.currency else p.currency,
      if q.language.Some? then q.language else p.language,
      if q.loading.Some? then q.loading else p.loading,
      if q.error.Some? then q.error else p.error)
  }

  /** A patch naming every field. */
  function Whole(t: State): Patch {
    Patch(Some(t.timezone), Some(t.dateFormat), Some(t.currency), Some(t.language), Some(t.loading), Some(t.error))
  }

  /** Assigning nothing changes nothing; assigning twice is assigning once;
      two assignments are one of the combined patch; a patch naming every
      field yields that state whatever the start. */
  lemma AssignLaws(s: State, p: Patch, q: Patch, t: State)
    ensures Assign(s, EmptyPatch) == s
    ensures Assign(Assign(s, p), p) == Assign(s, p)
    ensures Assign(Assign(s, p), q) == Assign(s, Then(p, q))
    ensures Assign(s, Whole(t)) == t
  {
  }

  class Slice {
    var timezone: string
    var dateFormat: string
    var currency: string
    var language: string
    var loading: bool
    var error: Option<string>
    /** The state captured when the slice was created; a reset returns to it. */
    const initial: State

    function Snapshot(): State
      reads this
    {
      State(timezone, dateFormat, currency, language, loading, error)
    }

    constructor (detected: Option<string>)
      ensures initial == InitialState(detected) && Snapshot() == initial
    {
      initial := InitialState(detected);
      new;
      timezone, dateFormat, currency, language := initial.timezone, initial.dateFormat, initial.currency, initial.language;
      loading, error := initial.loading, initial.error;
    }

    /** `updateSettingsRequested`; the payload is left to the side effect. */
    method UpdateRequested()
      modifies this
      ensures Snapshot() == old(Snapshot()).(loading := true, error := None)
    {
      loading, error := true, None;
    }

    /** The patch is applied, then the request is over and clean. */
    method UpdateSuccess(p: Patch)
      modifies this
      ensures Snapshot() == Assign(old(Snapshot()), p).(loading := false, error := None)
    {
      Apply(p);
      loading, error := false, None;
    }

    method UpdateFailure(message: string)
      modifies this
      ensures Snapshot() == old(Snapshot()).(loading := false, error := Some(message))
    {
      loading, error := false, Some(message);
    }

    /** Unlike an update request, loading keeps a previous error. */
    method LoadRequested()
      modifies this
      ensures Snapshot() == old(Snapshot()).(loading := true)
    {
      loading := true;
    }

    /** The patch is applied, an error in it included, and loading ends. */
    method LoadSuccess(p: Patch)
      modifies this
      ensures Snapshot() == Assign(old(Snapshot()), p).(loading := false)
    {
      Apply(p);
      loading := false;
    }

    method Reset()
      modifies this
      ensures Snapshot() == initial.(loading := false)
    {
      timezone, dateFormat, currency, language := initial.timezone, initial.dateFormat, initial.currency, initial.language;
      loading, error := false, initial.error;
    }

    method SetTimezone(v: string)
      modifies this
      ensures Snapshot() == old(Snapshot()).(timezone := v)
    {
      timezone := v;
    }

    method SetDateFormat(v: string)
      modifies this
      ensures Snapshot() == old(Snapshot()).(dateFormat := v)
    {
      dateFormat := v;
    }

    method SetCurrency(v: string)
      modifies this
      ensures Snapshot() == old(Snapshot()).(currency := v)
    {
      currency := v;
    }

    method SetLanguage(v: string)
      modifies this
      ensures Snapshot() == old(Snapshot()).(language := v)
    {
      language := v;
    }

    /** `Object.assign(state, p)` on the fields. */
    method Apply(p: Patch)
      modifies this
      ensures Snapshot() == Assign(old(Snapshot()), p)
    {
      timezone, dateFormat, currency := p.timezone.GetOr(timezone), p.dateFormat.GetOr(dateFormat), p.currency.GetOr(currency);
      language, loading, error := p.language.GetOr(language), p.loading.GetOr(loading), p.error.GetOr(error);
    }
  }
}
