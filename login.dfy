/** The sign-in page: the e-mail check, the magic-link request with its
    ten-second throttle and sixty-second resend countdown, and the rules
    for the submit button. The request itself is a parameter: its error
    message, or none when the link was sent. */
module Login {
  import opened Wrappers
  import Strings
  import Seqs

  // ---------------------------------------------------------------------
  // E-mail check

  /** The characters the pattern's `\s` class matches. */
  predicate IsWhitespace(c: char) {
    var n := c as int;
    || 9 <= n <= 13 || n == 32 || n == 0xA0 || n == 0x1680 || 0x2000 <= n <= 0x200A
    || n == 0x2028 || n == 0x2029 || n == 0x202F || n == 0x205F || n == 0x3000 || n == 0xFEFF
  }

  /** A character of the class `[^\s@]`. */
  predicate EmailChar(c: char) {
    c != '@' && !IsWhitespace(c)
  }

  /** A non-empty run of `[^\s@]`. */
  predicate Run(x: string) {
    |x| >= 1 && forall i :: 0 <= i < |x| ==> EmailChar(x[i])
  }

  /** The pattern `^[^\s@]+@[^\s@]+\.[^\s@]+$` read literally: three runs
      joined by '@' and '.'. */
  ghost predicate MatchesEmailPattern(s: string) {
    exists a, b, c {:trigger Run(a), Run(b), Run(c)} :: Run(a) && Run(b) && Run(c) && s == a + "@" + b + "." + c
  }

  /** The index of the first occurrence of `c`. */
  function FirstIndex(s: string, c: char): (r: Option<nat>)
    ensures r.None? ==> c !in s
    ensures r.Some? ==> r.value < |s| && s[r.value] == c && c !in s[..r.value]
  {
    if s == [] then None
    else if s[0] == c then Some(0)
    else
      match FirstIndex(s[1..], c)
      case None => None
      case Some(k) =>
        assert s[..k + 1] == [s[0]] + s[1..][..k];
        Some(k + 1)
  }

  /** `validateEmail`: a run before the first '@', and after it a run with
      a '.' that is neither its first nor its last character. */
  predicate ValidateEmail(s: string) {
    match FirstIndex(s, '@')
    case None => false
    case Some(k) =>
      var d := s[k + 1..];
      Run(s[..k]) && Run(d) && |d| >= 3 && '.' in d[1..|d| - 1]
  }

  /** The check accepts exactly the strings the pattern matches; such a
      string has one '@' and no whitespace. */
  lemma ValidateEmailIsPattern(s: string)
    ensures ValidateEmail(s) <==> MatchesEmailPattern(s)
    ensures ValidateEmail(s) ==> multiset(s)['@'] == 1 && forall i :: 0 <= i < |s| ==> !IsWhitespace(s[i])
  {
    if ValidateEmail(s) {
      AcceptedMatches(s);
    }
    if MatchesEmailPattern(s) {
      var a, b, c :| Run(a) && Run(b) && Run(c) && s == a + "@" + b + "." + c;
      MatchedAccepted(a, b, c);
    }
  }

  lemma AcceptedMatches(s: string)
    requires ValidateEmail(s)
    ensures MatchesEmailPattern(s)
    ensures multiset(s)['@'] == 1 && forall i :: 0 <= i < |s| ==> !IsWhitespace(s[i])
  {
    var a, b, c := AcceptedPieces(s);
    PatternPieces(a, b, c);
  }

  /** An accepted address cut into the three runs of the pattern. */
  lemma AcceptedPieces(s: string) returns (a: string, b: string, c: string)
    requires ValidateEmail(s)
    ensures Run(a) && Run(b) && Run(c) && s == a + "@" + b + "." + c
  {
    var k := FirstIndex(s, '@').value;
    var d := s[k + 1..];
    a := s[..k];
    var m := d[1..|d| - 1];
    var j :| 0 <= j < |m| && m[j] == '.';
    b, c := d[..j + 1], d[j + 2..];
    assert Run(b) && Run(c);
    Seqs.Around(s, k);
    Seqs.Around(d, j + 1);
    JoinAssoc(a, b, c);
  }

  lemma JoinAssoc(a: string, b: string, c: string)
    ensures a + "@" + (b + "." + c) == a + "@" + b + "." + c
  {
  }

  /** Three runs joined by '@' and '.' hold one '@' and no whitespace. */
  lemma PatternPieces(a: string, b: string, c: string)
    requires Run(a) && Run(b) && Run(c)
    ensures var s := a + "@" + b + "." + c;
      multiset(s)['@'] == 1 && forall i :: 0 <= i < |s| ==> !IsWhitespace(s[i])
  {
    var d := b + "." + c;
    RunAroundDot(b, c);
    assert a + "@" + b + "." + c == a + "@" + d;
    CountAt(a, d);
    var s := a + "@" + d;
    forall i | 0 <= i < |s| ensures !IsWhitespace(s[i]) {
      if i < |a| { assert s[i] == a[i]; } else if i > |a| { assert s[i] == d[i - |a| - 1]; }
    }
  }

  /** Two runs around a '.' make one run. */
  lemma RunAroundDot(b: string, c: string)
    requires Run(b) && Run(c)
    ensures Run(b + "." + c)
  {
    var d := b + "." + c;
    forall i | 0 <= i < |d| ensures EmailChar(d[i]) {
      if i < |b| { assert d[i] == b[i]; } else if i > |b| { assert d[i] == c[i - |b| - 1]; }
    }
  }

  lemma MatchedAccepted(a: string, b: string, c: string)
    requires Run(a) && Run(b) && Run(c)
    ensures ValidateEmail(a + "@" + b + "." + c)
  {
    var s := a + "@" + b + "." + c;
    var d := b + "." + c;
    assert s == a + "@" + d;
    assert s[|a|] == '@' && s[..|a|] == a;
    assert FirstIndex(s, '@') == Some(|a|);
    assert s[|a| + 1..] == d;
    RunAroundDot(b, c);
    assert d[1..|d| - 1][|b| - 1] == '.';
  }

  lemma CountAt(a: string, d: string)
    requires '@' !in a && '@' !in d
    ensures multiset(a + "@" + d)['@'] == 1
  {
    assert multiset(a + "@" + d) == multiset(a) + multiset{'@'} + multiset(d);
  }

  // ---------------------------------------------------------------------
  // Submit button

  /** Submitting is disabled while a request runs, while the countdown
      runs, and while the address is empty. */
  function ButtonDisabled(loading: bool, cooldown: int, email: string): (disabled: bool)
    ensures !disabled <==> !loading && cooldown <= 0 && email != ""
  {
    loading || cooldown > 0 || email == ""
  }

  /** The address field is disabled while a request or the countdown runs. */
  function InputDisabled(loading: bool, cooldown: int): bool {
    loading || cooldown > 0
  }

  datatype ButtonLabel = Sending | ResendIn(seconds: int) | SentLabel | SendMagicLink

  /** The label with its priorities: a running request, then the countdown,
      then an earlier success. */
  function Label(loading: bool, cooldown: int, success: bool): (l: ButtonLabel)
    ensures l.Sending? <==> loading
    ensures l.ResendIn? <==> !loading && cooldown > 0
    ensures l.ResendIn? ==> l.seconds == cooldown
    ensures l.SentLabel? <==> !loading && cooldown <= 0 && success
    ensures l.SendMagicLink? <==> !loading && cooldown <= 0 && !success
  {
    if loading then Sending
    else if cooldown > 0 then ResendIn(cooldown)
    else if success then SentLabel
    else SendMagicLink
  }

  function LabelText(l: ButtonLabel): string {
    match l
    case Sending => "Sending..."
    case ResendIn(n) => "Resend in " + Strings.IntToString(n) + "s"
    case SentLabel => "Sent!"
    case SendMagicLink => "Send magic link"
  }

  /** The address field is locked exactly when the button is, except for
      the button's own empty-address case. */
  lemma InputLockedWithButton(loading: bool, cooldown: int, email: string)
    ensures ButtonDisabled(loading, cooldown, email) <==> InputDisabled(loading, cooldown) || email == ""
    ensures InputDisabled(loading, cooldown) ==> ButtonDisabled(loading, cooldown, email)
  {
  }

  /** Characters 2 to 4 of each kind of label text, which tell the kinds
      apart. */
  function TextMark(l: ButtonLabel): string {
    match l
    case Sending => "ndi"
    case ResendIn(_) => "sen"
    case SentLabel => "nt!"
    case SendMagicLink => "nd "
  }

  /** Distinct labels read differently, so the text tells the state apart:
      the countdown shows its seconds, and the four kinds of label never
      share a text. */
  lemma LabelTextInjective(l1: ButtonLabel, l2: ButtonLabel)
    requires l1.ResendIn? ==> l1.seconds >= 0
    requires l2.ResendIn? ==> l2.seconds >= 0
    ensures LabelText(l1) == LabelText(l2) ==> l1 == l2
  {
    assert LabelText(l1)[2..5] == TextMark(l1);
    assert LabelText(l2)[2..5] == TextMark(l2);
    if LabelText(l1) == LabelText(l2) {
      if l1.ResendIn? && l2.ResendIn? {
        var t1, t2 := LabelText(l1), LabelText(l2);
        assert t1[10..|t1| - 1] == Strings.NatToString(l1.seconds);
        assert t2[10..|t2| - 1] == Strings.NatToString(l2.seconds);
        Strings.NatToStringInjective(l1.seconds, l2.seconds);
      }
    }
  }

  /** Every label the form can show is covered by the lemma above. */
  lemma LabelTextTellsStates(loading: bool, c1: int, s1: bool, c2: int, s2: bool)
    ensures LabelText(Label(loading, c1, s1)) == LabelText(Label(loading, c2, s2))
      ==> Label(loading, c1, s1) == Label(loading, c2, s2)
  {
    LabelTextInjective(Label(loading, c1, s1), Label(loading, c2, s2));
  }

  // ---------------------------------------------------------------------
  // Countdown

  const CooldownSeconds: int := 60

  /** One second of the countdown: a positive value goes down by one. */
  function TickValue(cooldown: int): int {
    if cooldown > 0 then cooldown - 1 else cooldown
  }

  /** The countdown after `n` seconds. */
  function CooldownAfter(cooldown: int, n: nat): (r: int)
    ensures cooldown >= 0 ==> r == if cooldown >= n then cooldown - n else 0
  {
    if n == 0 then cooldown else CooldownAfter(TickValue(cooldown), n - 1)
  }

  /** Sixty seconds after a send the countdown is over, and the button
      offers to send again (after showing "Sent!" for an address). */
  lemma CountdownEnds(email: string)
    requires email != ""
    ensures CooldownAfter(CooldownSeconds, 60) == 0
    ensures forall n: nat :: n < 60 ==> CooldownAfter(CooldownSeconds, n) > 0
    ensures !ButtonDisabled(false, CooldownAfter(CooldownSeconds, 60), email)
    ensures Label(false, CooldownAfter(CooldownSeconds, 60), true) == SentLabel
  {
  }

  // ---------------------------------------------------------------------
  // The form

  /** Minimum milliseconds between two link requests. */
  const ResendWindow: int := 10000

  const FailedToSend: string := "Failed to send magic link"

  /** A request at `now` comes too soon after the last one. */
  predicate Throttled(now: int, lastSentTime: int) {
    now - lastSentTime < ResendWindow
  }

  /** The notice a submit raises. */
  datatype Notice = InvalidEmail | TooManyRequests | LinkSent(address: string) | SendFailed(description: string)

  class LoginForm {
    var email: string
    var loading: bool
    var success: bool
    var lastSentTime: int
    var cooldown: int

    /** The countdown never goes below zero. */
    ghost predicate Valid()
      reads this
    {
      cooldown >= 0
    }

    constructor ()
      ensures Valid()
      ensures email == "" && !loading && !success && lastSentTime == 0 && cooldown == 0
    {
      email := "";
      loading := false;
      success := false;
      lastSentTime := 0;
      cooldown := 0;
    }

    method SetEmail(value: string)
      modifies this
      ensures email == value
      ensures loading == old(loading) && success == old(success)
      ensures lastSentTime == old(lastSentTime) && cooldown == old(cooldown)
    {
      email := value;
    }

    /** `handleSubmit` at the instant `now`; `sendError` is the outcome of
        the link request (`None` when the link was sent). A bad address or
        a request inside the throttle window changes nothing; otherwise the
        request runs and `loading` is false again when it ends. */
    method Submit(now: int, sendError: Option<string>) returns (notice: Notice)
      requires Valid()
      modifies this
      ensures Valid()
      ensures email == old(email)
      ensures !ValidateEmail(email) ==> notice == InvalidEmail && unchanged(this)
      ensures ValidateEmail(email) && Throttled(now, old(lastSentTime)) ==> notice == TooManyRequests && unchanged(this)
      ensures ValidateEmail(email) && !Throttled(now, old(lastSentTime)) ==> !loading
      ensures (&& ValidateEmail(email) && !Throttled(now, old(lastSentTime)) && sendError.None?)
        ==> && notice == LinkSent(email) && success && lastSentTime == now && cooldown == CooldownSeconds
            && ButtonDisabled(loading, cooldown, email) && Label(loading, cooldown, success) == ResendIn(CooldownSeconds)
      ensures (&& ValidateEmail(email) && !Throttled(now, old(lastSentTime)) && sendError.Some?)
        ==> && notice == SendFailed(if sendError.value == "" then FailedToSend else sendError.value)
            && !success && lastSentTime == old(lastSentTime) && cooldown == old(cooldown)
    {
      if !ValidateEmail(email) {
        return InvalidEmail;
      }
      if Throttled(now, lastSentTime) {
        return TooManyRequests;
      }
      loading := true;
      success := false;
      match sendError {
        case None =>
          success := true;
          lastSentTime := now;
          cooldown := CooldownSeconds;
          notice := LinkSent(email);
        case Some(message) =>
          notice := SendFailed(if message == "" then FailedToSend else message);
      }
      loading := false;
    }

    /** One second of the countdown timer. */
    method Tick()
      requires Valid()
      modifies this
      ensures Valid()
      ensures cooldown == TickValue(old(cooldown))
      ensures email == old(email) && loading == old(loading) && success == old(success)
      ensures lastSentTime == old(lastSentTime)
    {
      if cooldown > 0 {
        cooldown := cooldown - 1;
      }
    }
  }
}
