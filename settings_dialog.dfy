/** The settings dialog: a local copy of the four preferences that the user
    edits, compares with the stored settings, saves or throws away, and the
    option tables it offers. */
module SettingsDialog {
  import opened Wrappers
  import SettingsSlice
  import Formatters
  import Types

  /** The four preferences the dialog edits. */
  datatype Preferences = Preferences(timezone: string, dateFormat: string, currency: string, language: string)

  /** The four preferences of the stored settings. */
  function Stored(s: SettingsSlice.State): Preferences {
    Preferences(s.timezone, s.dateFormat, s.currency, s.language)
  }

  /** `hasChanges`: some key of the local copy differs from the stored
      setting of the same name. */
  function HasChanges(local: Preferences, stored: SettingsSlice.State): (changed: bool)
    ensures !changed <==> local == Stored(stored)
  {
    || local.timezone != stored.timezone
    || local.dateFormat != stored.dateFormat
    || local.currency != stored.currency
    || local.language != stored.language
  }

  /** The Save button is disabled without changes or while the settings
      are loading. */
  function SaveDisabled(local: Preferences, stored: SettingsSlice.State): (disabled: bool)
    ensures disabled <==> local == Stored(stored) || stored.loading
  {
    !HasChanges(local, stored) || stored.loading
  }

  /** The payload of a save: exactly the four local preferences. */
  function SavePatch(local: Preferences): (p: SettingsSlice.Patch)
    ensures p.loading.None? && p.error.None?
  {
    SettingsSlice.Patch(Some(local.timezone), Some(local.dateFormat), Some(local.currency), Some(local.language),
      None, None)
  }

  /** Once the store takes the saved payload, the dialog has nothing left
      to save, and the flags of the store are as they were. */
  lemma SavedSettingsHaveNoChanges(local: Preferences, stored: SettingsSlice.State)
    ensures !HasChanges(local, SettingsSlice.Assign(stored, SavePatch(local)))
    ensures SettingsSlice.Assign(stored, SavePatch(local)).loading == stored.loading
    ensures SettingsSlice.Assign(stored, SavePatch(local)).error == stored.error
  {
  }

  class SettingsForm {
    var local: Preferences

    /** The local copy starts as the stored preferences. */
    constructor (stored: SettingsSlice.State)
      ensures local == Stored(stored)
      ensures !HasChanges(local, stored)
    {
      local := Stored(stored);
    }

    /** The effect that runs whenever the stored settings change. */
    method Sync(stored: SettingsSlice.State)
      modifies this
      ensures local == Stored(stored)
      ensures !HasChanges(local, stored)
    {
      local := Stored(stored);
    }

    /** `handleCancel`: throws the edits away. */
    method Cancel(stored: SettingsSlice.State)
      modifies this
      ensures local == Stored(stored)
      ensures !HasChanges(local, stored)
    {
      local := Stored(stored);
    }

    /** `handleSave`: the payload it dispatches; the local copy stays. */
    method Save() returns (p: SettingsSlice.Patch)
      ensures p == SavePatch(local)
    {
      p := SavePatch(local);
    }

    method SetTimezone(v: string)
      modifies this
      ensures local == old(local).(timezone := v)
    {
      local := local.(timezone := v);
    }

    method SetDateFormat(v: string)
      modifies this
      ensures local == old(local).(dateFormat := v)
    {
      local := local.(dateFormat := v);
    }

    method SetCurrency(v: string)
      modifies this
      ensures local == old(local).(currency := v)
    {
      local := local.(currency := v);
    }

    method SetLanguage(v: string)
      modifies this
      ensures local == old(local).(language := v)
    {
      local := local.(language := v);
    }
  }

  /** Editing one preference away from the stored value and back leaves
      nothing to save. */
  lemma EditAndRevert(stored: SettingsSlice.State, v: string)
    requires v != stored.timezone
    ensures HasChanges(Stored(stored).(timezone := v), stored)
    ensures !HasChanges(Stored(stored).(timezone := v).(timezone := stored.timezone), stored)
  {
  }

  // ---------------------------------------------------------------------
  // Option tables

  const Timezones: seq<string> := [
    "UTC", "America/New_York", "America/Los_Angeles", "Europe/London", "Europe/Paris",
    "Asia/Tokyo", "Asia/Kolkata", "Asia/Shanghai", "Australia/Sydney"]

  const DateFormats: seq<string> := ["MM/DD/YYYY", "DD/MM/YYYY", "YYYY-MM-DD", "DD MMM YYYY"]

  /** Currency values with the symbol each option shows. */
  const Currencies: seq<(string, string)> := [
    ("USD", "$"), ("EUR", "€"), ("GBP", "£"), ("INR", "₹"), ("JPY", "¥"), ("CAD", "CAD"), ("AUD", "AUD")]

  const Languages: seq<string> := ["en", "hi"]

  /** Every offered date format is one the formatter handles explicitly,
      each with its own pattern. */
  lemma DateFormatsAreHandled()
    ensures forall i :: 0 <= i < |DateFormats| ==> DateFormats[i] in Formatters.DateFormats
    ensures forall i, j :: 0 <= i < j < |DateFormats| ==>
      Formatters.DatePattern(DateFormats[i]) != Formatters.DatePattern(DateFormats[j])
  {
    assert DateFormats == Formatters.DateFormats;
    forall i, j | 0 <= i < j < |DateFormats|
      ensures Formatters.DatePattern(DateFormats[i]) != Formatters.DatePattern(DateFormats[j])
    {
      PatternsDiffer(i, j);
    }
  }

  lemma PatternsDiffer(i: nat, j: nat)
    requires i < j < 4
    ensures Formatters.DatePattern(Formatters.DateFormats[i]) != Formatters.DatePattern(Formatters.DateFormats[j])
  {
    var p, q := Formatters.DatePattern(Formatters.DateFormats[i]), Formatters.DatePattern(Formatters.DateFormats[j]);
    if i == 0 {
      assert p[0] == 'M';
      if j == 3 { assert |p| != |q|; } else { assert q[0] != 'M'; }
    } else if i == 1 {
      if j == 2 { assert p[0] != q[0]; } else { assert p[2] != q[2]; }
    } else {
      assert p[0] != q[0];
    }
  }

  /** The symbols the currency options show are the formatter's fallback
      symbols; every currency of the data model is offered, and one more. */
  lemma CurrencyOptionsAgree()
    ensures forall i :: 0 <= i < |Currencies| ==> Formatters.FallbackSymbol(Currencies[i].0) == Currencies[i].1
    ensures forall c: Types.Currency ::
      (Types.CurrencyCode(c), Formatters.FallbackSymbol(Types.CurrencyCode(c))) in Currencies
    ensures forall c: Types.Currency :: Types.CurrencyCode(c) != Currencies[4].0
  {
    forall c: Types.Currency
      ensures (Types.CurrencyCode(c), Formatters.FallbackSymbol(Types.CurrencyCode(c))) in Currencies
    {
      var i := match c
        case USD => 0 case EUR => 1 case GBP => 2 case INR => 3 case CAD => 5 case AUD => 6;
      assert Currencies[i] == (Types.CurrencyCode(c), Formatters.FallbackSymbol(Types.CurrencyCode(c)));
    }
  }

  /** Each offered language has its own locale. */
  lemma LanguagesHaveLocales()
    ensures Formatters.LocaleFromLanguage(Languages[0]) == "en-US"
    ensures Formatters.LocaleFromLanguage(Languages[1]) == "hi-IN"
  {
  }
}
