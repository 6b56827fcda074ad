/**
 * The booking form's field rules and the error maps built from them.
 * Whitespace is ECMAScript's WhiteSpace and LineTerminator set, which is what
 * `String.prototype.trim` removes and what `\S` excludes.
 */
module Validation {
  import opened Wrappers
  import opened Digits

  // ---------------------------------------------------------------- characters

  predicate IsSpace(c: char) {
    c == '\t' || c == '\n' || c == '\U{B}' || c == '\U{C}' || c == '\r' || c == ' '
    || c == '\U{A0}' || c == '\U{1680}' || ('\U{2000}' <= c <= '\U{200A}')
    || c == '\U{2028}' || c == '\U{2029}' || c == '\U{202F}' || c == '\U{205F}'
    || c == '\U{3000}' || c == '\U{FEFF}'
  }

  predicate AllSpace(s: string) {
    forall i :: 0 <= i < |s| ==> IsSpace(s[i])
  }

  predicate NoSpace(s: string) {
    forall i :: 0 <= i < |s| ==> !IsSpace(s[i])
  }

  // ---------------------------------------------------------------- trim and upper case

  /** Drops the leading whitespace. */
  function TrimStart(s: string): string {
    if s != [] && IsSpace(s[0]) then TrimStart(s[1..]) else s
  }

  /** Drops the trailing whitespace. */
  function TrimEnd(s: string): string {
    if s != [] && IsSpace(s[|s| - 1]) then TrimEnd(s[..|s| - 1]) else s
  }

  /** `s.trim()` */
  function Trim(s: string): string {
    TrimEnd(TrimStart(s))
  }

  /** What `TrimStart` drops is whitespace, and what it keeps does not begin with whitespace. */
  lemma {:induction false} TrimStartSpec(s: string)
    ensures var r := TrimStart(s);
            |r| <= |s| && r == s[|s| - |r|..] && AllSpace(s[..|s| - |r|]) && (r == [] || !IsSpace(r[0]))
  {
    if s != [] && IsSpace(s[0]) {
      TrimStartSpec(s[1..]);
      var r := TrimStart(s);
      assert r == TrimStart(s[1..]);
      var n := |s| - |r|;
      assert s[1..][n - 1..] == s[n..];
      var inner := s[1..][..n - 1];
      assert AllSpace(inner);
      assert s[..n] == [s[0]] + inner;
      forall k | 0 <= k < n ensures IsSpace(s[..n][k]) {
        if k > 0 { assert s[..n][k] == inner[k - 1]; }
      }
    }
  }

  /** What `TrimEnd` drops is whitespace, and what it keeps does not end with whitespace. */
  lemma {:induction false} TrimEndSpec(s: string)
    ensures var r := TrimEnd(s);
            |r| <= |s| && r == s[..|r|] && AllSpace(s[|r|..]) && (r == [] || !IsSpace(r[|r| - 1]))
  {
    if s != [] && IsSpace(s[|s| - 1]) {
      var s' := s[..|s| - 1];
      TrimEndSpec(s');
      var r := TrimEnd(s);
      assert s'[..|r|] == s[..|r|];
      var tail := s[|r|..];
      assert tail == s'[|r|..] + [s[|s| - 1]];
      forall k | 0 <= k < |tail| ensures IsSpace(tail[k]) {
        if k < |tail| - 1 { assert tail[k] == s'[|r|..][k]; }
      }
    }
  }

  /** Where `Trim(s)` sits in `s`: between a whitespace prefix `s[..i]` and a whitespace suffix `s[j..]`. */
  lemma TrimBounds(s: string) returns (i: nat, j: nat)
    ensures i <= j <= |s| && Trim(s) == s[i..j] && AllSpace(s[..i]) && AllSpace(s[j..])
    ensures Trim(s) == [] || (!IsSpace(Trim(s)[0]) && !IsSpace(Trim(s)[|Trim(s)| - 1]))
  {
    var t := TrimStart(s);
    TrimStartSpec(s);
    TrimEndSpec(t);
    var r := TrimEnd(t);
    i := |s| - |t|;
    j := i + |r|;
    assert r == s[i..j];
    assert s[j..] == t[|r|..];
  }

  lemma {:induction false} TrimStartOfPadded(u: string, x: string)
    requires AllSpace(u)
    requires x == [] || !IsSpace(x[0])
    ensures TrimStart(u + x) == x
  {
    if u == [] {
      assert u + x == x;
    } else {
      assert (u + x)[1..] == u[1..] + x;
      TrimStartOfPadded(u[1..], x);
    }
  }

  lemma {:induction false} TrimEndOfPadded(x: string, v: string)
    requires AllSpace(v)
    requires x == [] || !IsSpace(x[|x| - 1])
    ensures TrimEnd(x + v) == x
  {
    if v == [] {
      assert x + v == x;
    } else {
      assert (x + v)[..|x + v| - 1] == x + v[..|v| - 1];
      TrimEndOfPadded(x, v[..|v| - 1]);
    }
  }

  /** Whitespace around a string that is already trimmed is exactly what `trim` removes. */
  lemma TrimOfPadded(u: string, t: string, v: string)
    requires AllSpace(u) && AllSpace(v)
    requires t == [] || (!IsSpace(t[0]) && !IsSpace(t[|t| - 1]))
    ensures Trim(u + t + v) == t
  {
    if t == [] {
      assert u + t + v == (u + v) + [];
      TrimStartOfPadded(u + v, []);
      TrimEndOfPadded([], []);
    } else {
      assert u + t + v == u + (t + v);
      TrimStartOfPadded(u, t + v);
      TrimEndOfPadded(t, v);
    }
  }

  lemma AllSpaceConcat(a: string, b: string)
    requires AllSpace(a) && AllSpace(b)
    ensures AllSpace(a + b)
  {
    forall k | 0 <= k < |a + b| ensures IsSpace((a + b)[k]) {
      if k < |a| { assert (a + b)[k] == a[k]; } else { assert (a + b)[k] == b[k - |a|]; }
    }
  }

  lemma SplitAround(u: string, s: string, v: string, i: nat, j: nat, r: string)
    requires i <= j <= |s| && s[i..j] == r
    ensures u + s + v == (u + s[..i]) + r + (s[j..] + v)
  {
    assert s == s[..i] + r + s[j..];
  }

  /** Surrounding whitespace never changes what `trim` returns. */
  lemma TrimPadded(u: string, s: string, v: string)
    requires AllSpace(u) && AllSpace(v)
    ensures Trim(u + s + v) == Trim(s)
  {
    var i, j := TrimBounds(s);
    var r := Trim(s);
    AllSpaceConcat(u, s[..i]);
    AllSpaceConcat(s[j..], v);
    SplitAround(u, s, v, i, j, r);
    TrimOfPadded(u + s[..i], r, s[j..] + v);
  }

  /** ASCII `toUpperCase`: 'a'..'z' become 'A'..'Z'; every other character is kept. */
  function UpperChar(c: char): (u: char)
    ensures IsDigit(u) <==> IsDigit(c)
    ensures u == 'V' <==> (c == 'V' || c == 'v')
  {
    if 'a' <= c <= 'z' then (c as int - 32) as char else c
  }

  function ToUpper(s: string): string {
    seq(|s|, i requires 0 <= i < |s| => UpperChar(s[i]))
  }

  // ---------------------------------------------------------------- the four field rules

  /** `!name.trim()` fails: the trimmed name is the empty string. */
  predicate IsValidName(name: string) {
    Trim(name) != []
  }

  /** A name passes exactly when it holds some non-whitespace character. */
  lemma NameValidIff(name: string)
    ensures IsValidName(name) <==> exists k :: 0 <= k < |name| && !IsSpace(name[k])
  {
    var i, j := TrimBounds(name);
    if IsValidName(name) {
      assert name[i] == Trim(name)[0];
    } else {
      assert i == j;
      forall k | 0 <= k < |name| ensures IsSpace(name[k]) {
        if k < i { assert name[k] == name[..i][k]; } else { assert name[k] == name[j..][k - j]; }
      }
    }
  }

  /** `/^\d{10}$/.test(contact)` */
  predicate IsValidContact(contact: string) {
    |contact| == 10 && AllDigits(contact)
  }

  /**
   * The contact is not trimmed before the anchored test, so any text around
   * a valid number, whitespace included, makes it fail.
   */
  lemma ContactNotTrimmed(u: string, contact: string, v: string)
    requires IsValidContact(contact) && u + v != []
    ensures !IsValidContact(u + contact + v)
  {
  }

  /** `nic.trim().toUpperCase()` */
  function NormalizeNic(nic: string): string {
    ToUpper(Trim(nic))
  }

  /** `/^[0-9]{9}V$/` */
  predicate IsOldNic(t: string) {
    |t| == 10 && AllDigits(t[..9]) && t[9] == 'V'
  }

  /** `/^[0-9]{12}$/` */
  predicate IsNewNic(t: string) {
    |t| == 12 && AllDigits(t)
  }

  predicate IsValidNic(nic: string) {
    var t := NormalizeNic(nic);
    IsOldNic(t) || IsNewNic(t)
  }

  /**
   * The NIC rule read on the trimmed input: nine digits and a `V` in either
   * case, or twelve digits.
   */
  lemma NicValidIff(nic: string)
    ensures var t := Trim(nic);
            IsValidNic(nic) <==>
              (|t| == 10 && AllDigits(t[..9]) && (t[9] == 'V' || t[9] == 'v')) || (|t| == 12 && AllDigits(t))
  {
    var t := Trim(nic);
    var n := NormalizeNic(nic);
    assert |n| == |t| && forall i :: 0 <= i < |t| ==> n[i] == UpperChar(t[i]);
    if |t| == 10 {
      assert AllDigits(n[..9]) <==> AllDigits(t[..9]) by {
        assert forall i :: 0 <= i < 9 ==> n[..9][i] == UpperChar(t[..9][i]);
      }
    }
  }

  /** Whitespace around a NIC never changes the verdict. */
  lemma NicPadded(u: string, nic: string, v: string)
    requires AllSpace(u) && AllSpace(v)
    ensures IsValidNic(u + nic + v) <==> IsValidNic(nic)
  {
    TrimPadded(u, nic, v);
  }

  // ---------------------------------------------------------------- the e-mail rule

  /** `\S+` */
  predicate NonSpaceRun(x: string) {
    |x| >= 1 && NoSpace(x)
  }

  /** `w` belongs to the language of `\S+@\S+\.\S+`. */
  ghost predicate EmailShaped(w: string) {
    exists x, y, z :: NonSpaceRun(x) && NonSpaceRun(y) && NonSpaceRun(z) && w == x + "@" + y + "." + z
  }

  /** The unanchored `test`: some substring of `s` belongs to that language. */
  ghost predicate ContainsEmailShape(s: string) {
    exists a, b :: 0 <= a <= b <= |s| && EmailShaped(s[a..b])
  }

  /**
   * `/\S+@\S+\.\S+/.test(email)`, decided by the positions of the `@` and of
   * a later `.`: one non-whitespace character before the `@`, at least one
   * between, at least one after the `.`, and no whitespace in that stretch.
   */
  predicate IsValidEmail(email: string) {
    exists p, q :: 1 <= p && p + 1 < q && q + 1 < |email| &&
      email[p] == '@' && email[q] == '.' && NoSpace(email[p - 1..q + 2])
  }

  /** A stretch that passes the position test is itself a word of the language. */
  lemma PositionsGiveShape(s: string, p: int, q: int)
    requires 1 <= p && p + 1 < q && q + 1 < |s|
    requires s[p] == '@' && s[q] == '.' && NoSpace(s[p - 1..q + 2])
    ensures EmailShaped(s[p - 1..q + 2])
  {
    var w := s[p - 1..q + 2];
    var x, y, z := s[p - 1..p], s[p + 1..q], s[q + 1..q + 2];
    assert w == x + "@" + y + "." + z;
    assert NonSpaceRun(x) by { assert x[0] == w[0]; }
    assert NonSpaceRun(y) by {
      forall k | 0 <= k < |y| ensures !IsSpace(y[k]) { assert y[k] == w[k + 2]; }
    }
    assert NonSpaceRun(z) by { assert z[0] == w[|w| - 1]; }
  }

  /** A word of the language holds no whitespace. */
  lemma ShapeHasNoSpace(x: string, y: string, z: string)
    requires NonSpaceRun(x) && NonSpaceRun(y) && NonSpaceRun(z)
    ensures NoSpace(x + "@" + y + "." + z)
  {
    var w := x + "@" + y + "." + z;
    forall k | 0 <= k < |w| ensures !IsSpace(w[k]) {
      if k < |x| { assert w[k] == x[k]; }
      else if k == |x| { assert w[k] == '@'; }
      else if k < |x| + 1 + |y| { assert w[k] == y[k - |x| - 1]; }
      else if k == |x| + 1 + |y| { assert w[k] == '.'; }
      else { assert w[k] == z[k - |x| - 2 - |y|]; }
    }
  }

  /** A word of the language inside `s` passes the position test. */
  lemma ShapeGivesPositions(s: string, a: int, b: int)
    requires 0 <= a <= b <= |s| && EmailShaped(s[a..b])
    ensures IsValidEmail(s)
  {
    var w := s[a..b];
    var x, y, z :| NonSpaceRun(x) && NonSpaceRun(y) && NonSpaceRun(z) && w == x + "@" + y + "." + z;
    ShapeHasNoSpace(x, y, z);
    var p := a + |x|;
    var q := p + 1 + |y|;
    assert s[p] == w[|x|] == '@';
    assert s[q] == w[|x| + 1 + |y|] == '.';
    assert |w| == |x| + |y| + |z| + 2;
    var m := s[p - 1..q + 2];
    assert NoSpace(m) by {
      forall k | 0 <= k < |m| ensures !IsSpace(m[k]) {
        assert m[k] == s[p - 1 + k] == w[|x| - 1 + k];
      }
    }
  }

  /** The position test above is exactly the regular expression's unanchored search. */
  lemma EmailRuleIsRegexTest(s: string)
    ensures IsValidEmail(s) <==> ContainsEmailShape(s)
  {
    if IsValidEmail(s) {
      var p, q :| 1 <= p && p + 1 < q && q + 1 < |s| && s[p] == '@' && s[q] == '.' && NoSpace(s[p - 1..q + 2]);
      PositionsGiveShape(s, p, q);
    }
    if ContainsEmailShape(s) {
      var a, b :| 0 <= a <= b <= |s| && EmailShaped(s[a..b]);
      ShapeGivesPositions(s, a, b);
    }
  }

  /** The search is unanchored: text before or after a passing address does not matter. */
  lemma EmailSurroundingText(u: string, s: string, v: string)
    requires IsValidEmail(s)
    ensures IsValidEmail(u + s + v)
  {
    var p, q :| 1 <= p && p + 1 < q && q + 1 < |s| && s[p] == '@' && s[q] == '.' && NoSpace(s[p - 1..q + 2]);
    var e := u + s + v;
    assert e[p + |u| - 1..q + |u| + 2] == s[p - 1..q + 2];
    assert e[p + |u|] == '@' && e[q + |u|] == '.';
  }

  lemma ContactExamples()
    ensures IsValidContact("0712345678")
    ensures !IsValidContact("071234567") && !IsValidContact("07123456789a")
  {
  }

  lemma EmailExamples()
    ensures IsValidEmail("a@b.co")
    ensures !IsValidEmail("a@b") && !IsValidEmail("ab.com")
  {
    var e := "a@b.co";
    assert e[1] == '@' && e[3] == '.' && NoSpace(e[0..5]);
    var f := "ab.com";
    assert forall p :: 0 <= p < |f| ==> f[p] != '@';
  }

  /** A NIC that needs no trimming is judged on its own characters. */
  lemma NicVerdictUntrimmed(nic: string)
    requires nic == [] || (!IsSpace(nic[0]) && !IsSpace(nic[|nic| - 1]))
    ensures IsValidNic(nic) <==>
              (|nic| == 10 && AllDigits(nic[..9]) && (nic[9] == 'V' || nic[9] == 'v')) || (|nic| == 12 && AllDigits(nic))
  {
    TrimOfPadded([], nic, []);
    assert [] + nic + [] == nic;
    NicValidIff(nic);
  }

  /** Nine digits followed by `V` or `v` pass. */
  lemma OldNicAccepted(digits: string, letter: char)
    requires |digits| == 9 && AllDigits(digits) && (letter == 'V' || letter == 'v')
    ensures IsValidNic(digits + [letter])
  {
    var nic := digits + [letter];
    assert nic[..9] == digits;
    NicVerdictUntrimmed(nic);
  }

  /** A lower-case `v` and whitespace around the NIC are accepted too. */
  lemma PaddedLowerCaseNicAccepted(u: string, digits: string, v: string)
    requires AllSpace(u) && AllSpace(v) && |digits| == 9 && AllDigits(digits)
    ensures IsValidNic(u + (digits + ['v']) + v)
  {
    OldNicAccepted(digits, 'v');
    NicPadded(u, digits + ['v'], v);
  }

  /** Twelve digits pass. */
  lemma NewNicAccepted(digits: string)
    requires |digits| == 12 && AllDigits(digits)
    ensures IsValidNic(digits)
  {
    NicVerdictUntrimmed(digits);
  }

  /** Any length other than 10 or 12 once trimmed fails. */
  lemma NicWrongLength(nic: string)
    requires |Trim(nic)| != 10 && |Trim(nic)| != 12
    ensures !IsValidNic(nic)
  {
    NicValidIff(nic);
  }

  // ---------------------------------------------------------------- error maps

  datatype Field = Name | Contact | Nic | Email

  /**
   * What the `errors` object holds under one field's key: no key at all, the
   * key holding `undefined` (left by an edit, or by the final confirmation's
   * `nic: undefined`), or the message of a field's rule, named by the field
   * whose rule it belongs to (its wording is `Message(field)`).
   */
  datatype Slot = Absent | Undefined | Text(field: Field)

  /** The `errors` object, one slot per field. */
  datatype Errors = Errors(name: Slot, contact: Slot, email: Slot, nic: Slot) {

    function Get(f: Field): Slot {
      match f
      case Name => name
      case Contact => contact
      case Email => email
      case Nic => nic
    }

    /** `{ ...errors, [f]: s }` */
    function With(f: Field, s: Slot): (e: Errors)
      ensures e.Get(f) == s
      ensures forall g :: g != f ==> e.Get(g) == Get(g)
    {
      match f
      case Name => this.(name := s)
      case Contact => this.(contact := s)
      case Email => this.(email := s)
      case Nic => this.(nic := s)
    }

    /** `Object.keys(errors).length`: keys holding `undefined` count too. */
    function KeyCount(): (n: nat)
      ensures n == 0 <==> this == Errors(Absent, Absent, Absent, Absent)
      ensures n <= 4
    {
      (if name == Absent then 0 else 1) + (if contact == Absent then 0 else 1)
      + (if email == Absent then 0 else 1) + (if nic == Absent then 0 else 1)
    }

    /** A field's message is shown when its key holds a string (`errors.f &&`). */
    predicate Shows(f: Field) {
      Get(f).Text?
    }

    /** The text under a field's input (`{errors.f}`), if any. */
    function Shown(f: Field): (m: Option<string>)
      ensures m.Some? <==> Shows(f)
    {
      match Get(f)
      case Text(g) => Some(Message(g))
      case _ => None
    }
  }

  const NoErrors := Errors(Absent, Absent, Absent, Absent)

  function Message(f: Field): string {
    match f
    case Name => "Name is required"
    case Contact => "Contact must be a 10-digit number"
    case Email => "Valid email is required"
    case Nic => "NIC must be 9 digits + \"V\" or 12 digits"
  }

  /**
   * Typing in a field hides its message: the key is set to `undefined`
   * rather than deleted, and nothing shows for it; the other fields' texts stay.
   */
  lemma EditHidesMessage(e: Errors, f: Field)
    ensures e.With(f, Undefined).Shown(f) == None
    ensures forall g :: g != f ==> e.With(f, Undefined).Shown(g) == e.Shown(g)
  {
  }

  /** The verdict of each field's rule on the current form. */
  datatype Verdict = Verdict(name: bool, contact: bool, email: bool, nic: bool) {
    predicate All() {
      name && contact && email && nic
    }

    predicate Passes(f: Field) {
      match f
      case Name => name
      case Contact => contact
      case Email => email
      case Nic => nic
    }
  }

  /** Applies all four rules; none short-circuits another. */
  function Check(name: string, contact: string, email: string, nic: string): (v: Verdict)
  {
    Verdict(IsValidName(name), IsValidContact(contact), IsValidEmail(email), IsValidNic(nic))
  }

  function SlotFor(f: Field, pass: bool): (s: Slot)
    ensures s == Absent <==> pass
    ensures !pass ==> s == Text(f)
  {
    if pass then Absent else Text(f)
  }

  /**
   * The errors the "Confirm Booking" button collects: a field has a key
   * exactly when its rule fails, and then holds its message, so there is no
   * key at all exactly when all four rules pass.
   */
  function ProceedErrors(v: Verdict): (r: Errors)
    ensures forall f :: r.Get(f) == SlotFor(f, v.Passes(f))
    ensures r.KeyCount() == 0 <==> v.All()
  {
    Errors(SlotFor(Name, v.name), SlotFor(Contact, v.contact), SlotFor(Email, v.email), SlotFor(Nic, v.nic))
  }

  /** After a refused "Confirm Booking", each failing field shows its own rule's message and no other field shows one. */
  lemma ProceedErrorsShow(v: Verdict, f: Field)
    ensures ProceedErrors(v).Shown(f) == if v.Passes(f) then None else Some(Message(f))
  {
  }

  /**
   * The errors the "Yes, Confirm Booking" button collects: it starts from a
   * `nic` key holding `undefined` and never checks the NIC, so the key count
   * is never 0, whatever the verdicts on the other fields. When those three
   * pass, no message is shown at all, yet the key count still blocks.
   */
  function FinalErrors(v: Verdict): (r: Errors)
    ensures r.nic == Undefined && r.KeyCount() > 0
    ensures forall f :: f != Nic ==> r.Get(f) == SlotFor(f, v.Passes(f))
    ensures v.name && v.contact && v.email ==> forall f :: !r.Shows(f)
  {
    Errors(SlotFor(Name, v.name), SlotFor(Contact, v.contact), SlotFor(Email, v.email), Undefined)
  }

  /**
   * What "Yes, Confirm Booking" evidently means to collect: the errors of
   * the three fields it checks and no `nic` key, so that a form passing
   * those three rules leaves no key at all and the confirmation is sent.
   */
  function IntendedFinalErrors(v: Verdict): (r: Errors)
    ensures r.nic == Absent
    ensures forall f :: f != Nic ==> r.Get(f) == SlotFor(f, v.Passes(f))
    ensures r.KeyCount() == 0 <==> v.name && v.contact && v.email
  {
    Errors(SlotFor(Name, v.name), SlotFor(Contact, v.contact), SlotFor(Email, v.email), Absent)
  }
}
