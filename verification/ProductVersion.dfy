/** Product versions (scripts/product_version.py, lines 25-28, 105-110 and 393-455): decimal strings, the
    version after a version, beta identities before it, and their order. */
module ProductVersion {
  import opened Basics

  // ---- decimal strings ----

  predicate IsDigit(c: char) { '0' <= c <= '9' }

  function Digit(c: char): nat
    requires IsDigit(c)
  {
    c as nat - '0' as nat
  }

  predicate Digits(s: string) { forall i :: 0 <= i < |s| ==> IsDigit(s[i]) }

  // Digits without a leading zero, except for zero itself.
  predicate Canonical(s: string) { Digits(s) && |s| > 0 && (s[0] == '0' ==> |s| == 1) }

  function Number(s: string): nat
    requires Digits(s)
  {
    if |s| == 0 then 0 else 10 * Number(s[..|s| - 1]) + Digit(s[|s| - 1])
  }

  function Incremented(s: string): string
    requires Digits(s)
  {
    if |s| == 0 then "1"
    else
      var prefix, last := s[..|s| - 1], s[|s| - 1];
      if last == '9' then Incremented(prefix) + "0" else prefix + [(last as int + 1) as char]
  }

  /** Adding one on the string is adding one to the number, and keeps the form canonical. */
  lemma {:induction false} IncrementAddsOne(s: string)
    requires Digits(s)
    ensures Digits(Incremented(s)) && Number(Incremented(s)) == Number(s) + 1
    ensures |s| <= |Incremented(s)| <= |s| + 1 && |Incremented(s)| > 0
    ensures (|s| == 0 || Canonical(s)) ==> Canonical(Incremented(s)) && Incremented(s)[0] != '0'
  {
    if |s| > 0 {
      var prefix, last := s[..|s| - 1], s[|s| - 1];
      IncrementAddsOne(prefix);
      if last == '9' {
        assert Incremented(s)[..|Incremented(s)| - 1] == Incremented(prefix);
      } else {
        assert Incremented(s)[..|s| - 1] == prefix;
      }
    }
  }

  /** The digit list from the right, until a digit takes the carry. */
  method IncrementDecimal(value: string) returns (next: string)
    requires Digits(value)
    ensures next == Incremented(value) && Digits(next) && Number(next) == Number(value) + 1
    ensures Canonical(value) ==> Canonical(next)
  {
    var digits := value;
    var carry := 1;
    var index := |value|;
    assert value[..index] == value && digits[index..] == "";
    while index > 0 && carry == 1
      invariant 0 <= index <= |value| == |digits| && (carry == 0 || carry == 1)
      invariant carry == 1 ==>
          digits[..index] == value[..index] && Incremented(value) == Incremented(value[..index]) + digits[index..]
      invariant carry == 0 ==> digits == Incremented(value)
      decreases index
    {
      index := index - 1;
      ghost var before := digits;
      assert value[..index + 1][..index] == value[..index];
      assert digits[index] == digits[..index + 1][index] == value[index];
      var digit := Digit(digits[index]) + carry;
      if digit == 10 {
        digits := digits[index := '0'];
        assert digits[index..] == "0" + before[index + 1..];
        assert Incremented(value[..index]) + ("0" + before[index + 1..]) ==
            Incremented(value[..index]) + "0" + before[index + 1..];
      } else {
        digits := digits[index := ('0' as int + digit) as char];
        assert before == value[..index + 1] + before[index + 1..];
        assert digits == value[..index] + [('0' as int + digit) as char] + before[index + 1..];
        carry := 0;
      }
    }
    next := if carry == 1 then "1" + digits else digits;
    if carry == 1 {
      assert digits[0..] == digits;
    }
    IncrementAddsOne(value);
  }

  /** Equal numbers are written with equal strings. */
  lemma {:induction false} CanonicalUnique(s: string, t: string)
    requires Canonical(s) && Canonical(t) && Number(s) == Number(t)
    ensures s == t
  {
    NumberGrows(s);
    NumberGrows(t);
    if |s| > 1 && |t| > 1 {
      CanonicalUnique(s[..|s| - 1], t[..|t| - 1]);
      assert s == s[..|s| - 1] + [s[|s| - 1]];
      assert t == t[..|t| - 1] + [t[|t| - 1]];
    }
  }

  lemma {:induction false} NumberGrows(s: string)
    requires Canonical(s)
    ensures |s| > 1 ==> Number(s) >= 10 && Canonical(s[..|s| - 1])
    ensures |s| == 1 ==> Number(s) == Digit(s[0])
    ensures s[0] != '0' <==> Number(s) > 0
  {
    if |s| > 1 {
      NumberGrows(s[..|s| - 1]);
    } else {
      assert s[..0] == "";
    }
  }

  // ---- identities and their text ----

  datatype Identity =
    | Stable(major: string, minor: string, patch: string)
    | Beta(major: string, minor: string, patch: string, run: string, attempt: string)

  predicate Positive(s: string) { Canonical(s) && s[0] != '0' }

  predicate Wellformed(v: Identity) {
    && Canonical(v.major) && Canonical(v.minor) && Canonical(v.patch)
    && (v.Beta? ==> Positive(v.run) && Positive(v.attempt))
  }

  const BETA := "-beta."

  function Patch(v: Identity): string {
    if v.Stable? then v.patch else v.patch + (BETA + (v.run + ("." + v.attempt)))
  }

  function Text(v: Identity): string { v.major + ("." + (v.minor + ("." + Patch(v)))) }

  // The leading digits of a text.
  function Leading(s: string): (k: nat)
    ensures k <= |s| && Digits(s[..k]) && (k < |s| ==> !IsDigit(s[k]))
  {
    if |s| == 0 || !IsDigit(s[0]) then 0
    else
      var k := Leading(s[1..]);
      assert s[..k + 1] == [s[0]] + s[1..][..k];
      k + 1
  }

  // A canonical decimal at the front, followed by `mark`; the mark "" stands for the end of the text.
  function Field(s: string, mark: string): Option<(string, string)> {
    var k := Leading(s);
    if !Canonical(s[..k]) then None
    else if mark == "" then if k == |s| then Some((s, "")) else None
    else if mark <= s[k..] then Some((s[..k], s[k + |mark|..])) else None
  }

  function ParseBeta(major: string, minor: string, s: string): Option<Identity> {
    var patch := Field(s, BETA);
    if patch.None? then None
    else
      var run := Field(patch.value.1, ".");
      if run.None? || run.value.0[0] == '0' then None
      else
        var attempt := Field(run.value.1, "");
        if attempt.None? || attempt.value.0[0] == '0' then None
        else Some(Beta(major, minor, patch.value.0, run.value.0, attempt.value.0))
  }

  function Parse(s: string): Option<Identity> {
    var major := Field(s, ".");
    if major.None? then None
    else
      var minor := Field(major.value.1, ".");
      if minor.None? then None
      else
        var patch := Field(minor.value.1, "");
        if patch.Some? then Some(Stable(major.value.0, minor.value.0, patch.value.0))
        else ParseBeta(major.value.0, minor.value.0, minor.value.1)
  }

  lemma {:induction false} LeadingIs(number: string, rest: string)
    requires Digits(number) && (rest == "" || !IsDigit(rest[0]))
    ensures Leading(number + rest) == |number|
  {
    if number == "" {
      assert number + rest == rest;
    } else {
      LeadingIs(number[1..], rest);
      assert (number + rest)[1..] == number[1..] + rest;
    }
  }

  // A field is read back exactly as it was written.
  lemma {:induction false} FieldReads(number: string, mark: string, rest: string)
    requires Canonical(number) && mark != "" && !IsDigit(mark[0])
    ensures Field(number + (mark + rest), mark) == Some((number, rest))
  {
    var tail := mark + rest;
    LeadingIs(number, tail);
    var s := number + tail;
    assert s[..|number|] == number && s[|number|..] == tail;
    assert s[|number| + |mark|..] == rest;
  }

  lemma {:induction false} LastFieldReads(number: string)
    requires Canonical(number)
    ensures Field(number, "") == Some((number, ""))
  {
    LeadingIs(number, "");
    assert number + "" == number && number[..|number|] == number;
  }

  lemma {:induction false} FieldWrites(s: string, mark: string)
    requires Field(s, mark).Some?
    ensures s == Field(s, mark).value.0 + (mark + Field(s, mark).value.1) && Canonical(Field(s, mark).value.0)
  {
    var k := Leading(s);
    assert s == s[..k] + s[k..];
    if mark == "" {
      assert s + ("" + "") == s && s[..k] == s;
    } else {
      assert s[k..] == mark + s[k + |mark|..];
    }
  }

  lemma {:induction false} BetaIsNoEnd(number: string, rest: string)
    requires Canonical(number)
    ensures Field(number + (BETA + rest), "") == None
  {
    LeadingIs(number, BETA + rest);
  }

  /** Parsing accepts exactly the texts of well-formed identities, each from one text only. */
  lemma {:induction false} ParseIsText(s: string, v: Identity)
    ensures Parse(s) == Some(v) <==> Wellformed(v) && Text(v) == s
  {
    if Parse(s) == Some(v) {
      ParsedIsText(s);
    }
    if Wellformed(v) && Text(v) == s {
      TextParses(v);
    }
  }

  lemma {:induction false} BetaWrites(major: string, minor: string, s: string)
    requires Canonical(major) && Canonical(minor) && ParseBeta(major, minor, s).Some?
    ensures
      var v := ParseBeta(major, minor, s).value;
      Wellformed(v) && v.major == major && v.minor == minor && s == v.patch + (BETA + (v.run + ("." + v.attempt)))
      && v.Beta?
  {
    FieldWrites(s, BETA);
    var patch := Field(s, BETA).value;
    FieldWrites(patch.1, ".");
    var run := Field(patch.1, ".").value;
    FieldWrites(run.1, "");
    assert run.1 == Field(run.1, "").value.0;
  }

  lemma {:induction false} ParsedIsText(s: string)
    requires Parse(s).Some?
    ensures Wellformed(Parse(s).value) && Text(Parse(s).value) == s
  {
    FieldWrites(s, ".");
    var major := Field(s, ".").value;
    FieldWrites(major.1, ".");
    var minor := Field(major.1, ".").value;
    if Field(minor.1, "").Some? {
      FieldWrites(minor.1, "");
    } else {
      BetaWrites(major.0, minor.0, minor.1);
    }
  }

  lemma {:induction false} BetaReads(v: Identity)
    requires Wellformed(v) && v.Beta?
    ensures ParseBeta(v.major, v.minor, Patch(v)) == Some(v) && Field(Patch(v), "") == None
  {
    LastFieldReads(v.attempt);
    FieldReads(v.run, ".", v.attempt);
    FieldReads(v.patch, BETA, v.run + ("." + v.attempt));
    BetaIsNoEnd(v.patch, v.run + ("." + v.attempt));
  }

  lemma {:induction false} TextParses(v: Identity)
    requires Wellformed(v)
    ensures Parse(Text(v)) == Some(v)
  {
    var third := Patch(v);
    FieldReads(v.minor, ".", third);
    FieldReads(v.major, ".", v.minor + ("." + third));
    if v.Stable? {
      LastFieldReads(v.patch);
    } else {
      BetaReads(v);
    }
  }

  // ---- the order ----

  // The precedence key: a stable version comes after the betas of the same numbers.
  function Key(v: Identity): seq<nat>
    requires Wellformed(v)
  {
    if v.Stable? then [Number(v.major), Number(v.minor), Number(v.patch), 1, 0, 0]
    else [Number(v.major), Number(v.minor), Number(v.patch), 0, Number(v.run), Number(v.attempt)]
  }

  predicate LexLess(a: seq<nat>, b: seq<nat>) {
    if |a| == 0 || |b| == 0 then |a| < |b|
    else a[0] < b[0] || (a[0] == b[0] && LexLess(a[1..], b[1..]))
  }

  lemma {:induction false} LexTotal(a: seq<nat>, b: seq<nat>)
    ensures LexLess(a, b) || LexLess(b, a) || a == b
    ensures !(LexLess(a, b) && LexLess(b, a))
    ensures a == b ==> !LexLess(a, b)
  {
    if |a| > 0 && |b| > 0 {
      LexTotal(a[1..], b[1..]);
      if a[0] == b[0] && a[1..] == b[1..] {
        assert a == [a[0]] + a[1..] && b == [b[0]] + b[1..];
      }
    }
  }

  lemma {:induction false} LexTransitive(a: seq<nat>, b: seq<nat>, c: seq<nat>)
    requires LexLess(a, b) && LexLess(b, c)
    ensures LexLess(a, c)
  {
    if |a| > 0 && |b| > 0 && |c| > 0 && a[0] == b[0] == c[0] {
      LexTransitive(a[1..], b[1..], c[1..]);
    }
  }

  lemma {:induction false} KeyUnique(v: Identity, w: Identity)
    requires Wellformed(v) && Wellformed(w) && Key(v) == Key(w)
    ensures v == w
  {
    assert Key(v)[3] == Key(w)[3] && Key(v)[0] == Key(w)[0] && Key(v)[1] == Key(w)[1] && Key(v)[2] == Key(w)[2];
    CanonicalUnique(v.major, w.major);
    CanonicalUnique(v.minor, w.minor);
    CanonicalUnique(v.patch, w.patch);
    if v.Beta? {
      assert Key(v)[4] == Key(w)[4] && Key(v)[5] == Key(w)[5];
      CanonicalUnique(v.run, w.run);
      CanonicalUnique(v.attempt, w.attempt);
    }
  }

  predicate Precedes(v: Identity, w: Identity)
    requires Wellformed(v) && Wellformed(w)
  {
    LexLess(Key(v), Key(w))
  }

  /** Any two identities are ordered one way, unless they are the same one. */
  lemma {:induction false} PrecedenceIsTotal(v: Identity, w: Identity)
    requires Wellformed(v) && Wellformed(w)
    ensures Precedes(v, w) || Precedes(w, v) || v == w
    ensures !(Precedes(v, w) && Precedes(w, v)) && !Precedes(v, v)
  {
    LexTotal(Key(v), Key(w));
    LexTotal(Key(v), Key(v));
    if Key(v) == Key(w) {
      KeyUnique(v, w);
    }
  }

  lemma {:induction false} PrecedenceIsTransitive(v: Identity, w: Identity, x: Identity)
    requires Wellformed(v) && Wellformed(w) && Wellformed(x) && Precedes(v, w) && Precedes(w, x)
    ensures Precedes(v, x)
  {
    LexTransitive(Key(v), Key(w), Key(x));
  }

  // What comes before what, number by number: a smaller major, then minor, then patch version, then a beta before
  // the stable version, then a smaller run and a smaller attempt.
  predicate ComesBefore(v: Identity, w: Identity)
    requires Wellformed(v) && Wellformed(w)
  {
    if v.major != w.major then Number(v.major) < Number(w.major)
    else if v.minor != w.minor then Number(v.minor) < Number(w.minor)
    else if v.patch != w.patch then Number(v.patch) < Number(w.patch)
    else if v.Stable? then false
    else if w.Stable? then true
    else if v.run != w.run then Number(v.run) < Number(w.run)
    else Number(v.attempt) < Number(w.attempt)
  }

  lemma {:induction false} LexHead(a: nat, b: nat, s: seq<nat>, t: seq<nat>)
    ensures LexLess([a] + s, [b] + t) <==> a < b || (a == b && LexLess(s, t))
  {
    assert ([a] + s)[1..] == s && ([b] + t)[1..] == t;
  }

  /** The order of the keys is that order. */
  lemma {:induction false} PrecedesIff(v: Identity, w: Identity)
    requires Wellformed(v) && Wellformed(w)
    ensures Precedes(v, w) <==> ComesBefore(v, w)
  {
    var a, b := Key(v), Key(w);
    assert a == [a[0]] + ([a[1]] + ([a[2]] + ([a[3]] + [a[4], a[5]])));
    assert b == [b[0]] + ([b[1]] + ([b[2]] + ([b[3]] + [b[4], b[5]])));
    LexHead(a[0], b[0], [a[1]] + ([a[2]] + ([a[3]] + [a[4], a[5]])), [b[1]] + ([b[2]] + ([b[3]] + [b[4], b[5]])));
    LexHead(a[1], b[1], [a[2]] + ([a[3]] + [a[4], a[5]]), [b[2]] + ([b[3]] + [b[4], b[5]]));
    LexHead(a[2], b[2], [a[3]] + [a[4], a[5]], [b[3]] + [b[4], b[5]]);
    LexHead(a[3], b[3], [a[4], a[5]], [b[4], b[5]]);
    LexPair(a[4], a[5], b[4], b[5]);
    SameNumbers(v, w);
  }

  lemma {:induction false} SameNumbers(v: Identity, w: Identity)
    requires Wellformed(v) && Wellformed(w)
    ensures v.major == w.major <==> Number(v.major) == Number(w.major)
    ensures v.minor == w.minor <==> Number(v.minor) == Number(w.minor)
    ensures v.patch == w.patch <==> Number(v.patch) == Number(w.patch)
    ensures v.Beta? && w.Beta? ==> (v.run == w.run <==> Number(v.run) == Number(w.run))
  {
    if Number(v.major) == Number(w.major) {
      CanonicalUnique(v.major, w.major);
    }
    if Number(v.minor) == Number(w.minor) {
      CanonicalUnique(v.minor, w.minor);
    }
    if Number(v.patch) == Number(w.patch) {
      CanonicalUnique(v.patch, w.patch);
    }
    if v.Beta? && w.Beta? && Number(v.run) == Number(w.run) {
      CanonicalUnique(v.run, w.run);
    }
  }

  const MAX_IDENTITY := 32

  // The key of a text, or nothing for a text that is refused.
  function KeyOf(s: string): Option<seq<nat>> {
    if 1 <= |s| <= MAX_IDENTITY && Parse(s).Some? then (ParsedIsText(s); Some(Key(Parse(s).value))) else None
  }

  function Compare(left: string, right: string): Option<int> {
    var (first, second) := (KeyOf(left), KeyOf(right));
    if first.None? || second.None? then None
    else
      Some((if LexLess(second.value, first.value) then 1 else 0)
           - (if LexLess(first.value, second.value) then 1 else 0))
  }

  // The text of a well-formed identity within the length limit.
  ghost predicate IsBoundedText(s: string) {
    |s| <= 32 && exists v :: Wellformed(v) && Text(v) == s
  }

  /** Comparing accepts exactly the texts of well-formed identities within the length limit. */
  lemma {:induction false} CompareAccepts(a: string, b: string)
    ensures Compare(a, b).Some? <==> IsBoundedText(a) && IsBoundedText(b)
  {
    KeyOfBounded(a);
    KeyOfBounded(b);
  }

  lemma {:induction false} KeyOfBounded(s: string)
    ensures KeyOf(s).Some? <==> IsBoundedText(s)
  {
    if KeyOf(s).Some? {
      ParsedIsText(s);
    }
    if v :| Wellformed(v) && Text(v) == s && |s| <= 32 {
      TextParses(v);
    }
  }

  /** On those texts it is the order of the identities, and 0 exactly for identical texts. */
  lemma {:induction false} CompareIsPrecedence(v: Identity, w: Identity)
    requires Wellformed(v) && Wellformed(w) && |Text(v)| <= 32 && |Text(w)| <= 32
    ensures Compare(Text(v), Text(w)) == Some(if ComesBefore(v, w) then -1 else if ComesBefore(w, v) then 1 else 0)
    ensures Compare(Text(v), Text(w)) == Some(0) <==> Text(v) == Text(w)
  {
    KeyOfText(v);
    KeyOfText(w);
    PrecedenceIsTotal(v, w);
    PrecedesIff(v, w);
    PrecedesIff(w, v);
    SameText(v, w);
  }

  lemma {:induction false} KeyOfText(v: Identity)
    requires Wellformed(v) && |Text(v)| <= MAX_IDENTITY
    ensures KeyOf(Text(v)) == Some(Key(v))
  {
    TextParses(v);
  }

  lemma {:induction false} SameText(v: Identity, w: Identity)
    requires Wellformed(v) && Wellformed(w)
    ensures Text(v) == Text(w) <==> v == w
  {
    TextParses(v);
    TextParses(w);
  }

  // ---- next versions and betas ----

  function NextOf(v: Identity): Identity
    requires Wellformed(v)
  {
    Stable(v.major, v.minor, Incremented(v.patch))
  }

  function BetaOf(v: Identity, run: string, attempt: string): Identity
    requires Wellformed(v)
  {
    Beta(v.major, v.minor, Incremented(v.patch), run, attempt)
  }

  // A stable version's successor; None for a text that is no stable version.
  function NextVersion(s: string): Option<string> {
    if Parse(s).Some? && Parse(s).value.Stable? then (ParsedIsText(s); Some(Text(NextOf(Parse(s).value)))) else None
  }

  function BetaVersion(s: string, run: string, attempt: string): Option<string> {
    if Parse(s).Some? && Parse(s).value.Stable? && Positive(run) && Positive(attempt)
    then (ParsedIsText(s); Some(Text(BetaOf(Parse(s).value, run, attempt)))) else None
  }

  lemma {:induction false} NextIsNext(v: Identity)
    requires Wellformed(v)
    ensures Wellformed(NextOf(v)) && Number(NextOf(v).patch) == Number(v.patch) + 1
    ensures forall run, attempt :: Positive(run) && Positive(attempt) ==> Wellformed(BetaOf(v, run, attempt))
  {
    IncrementAddsOne(v.patch);
  }

  lemma {:induction false} TextsOfNext(v: Identity, run: string, attempt: string)
    requires Wellformed(v) && v.Stable?
    ensures NextVersion(Text(v)) == Some(Text(NextOf(v)))
    ensures BetaVersion(Text(v), run, attempt) ==
      if Positive(run) && Positive(attempt) then Some(Text(BetaOf(v, run, attempt))) else None
  {
    TextParses(v);
  }

  /** The beta of a stable version is refused unless both counters are positive canonical decimals; it lies
      strictly between that version and the one after it. */
  lemma {:induction false} BetaLiesBetween(v: Identity, run: string, attempt: string)
    requires Wellformed(v) && v.Stable?
    ensures BetaVersion(Text(v), run, attempt).Some? <==> Positive(run) && Positive(attempt)
    ensures Positive(run) && Positive(attempt) ==>
      var (beta, next) := (BetaOf(v, run, attempt), NextOf(v));
      && BetaVersion(Text(v), run, attempt) == Some(Text(beta)) && NextVersion(Text(v)) == Some(Text(next))
      && Wellformed(beta) && Wellformed(next) && Precedes(v, beta) && Precedes(beta, next)
  {
    TextsOfNext(v, run, attempt);
    NextIsNext(v);
    if Positive(run) && Positive(attempt) {
      BetweenKeys(v, run, attempt);
    }
  }

  lemma {:induction false} BetweenKeys(v: Identity, run: string, attempt: string)
    requires Wellformed(v) && v.Stable? && Wellformed(BetaOf(v, run, attempt)) && Wellformed(NextOf(v))
    requires Number(NextOf(v).patch) == Number(v.patch) + 1
    ensures Precedes(v, BetaOf(v, run, attempt)) && Precedes(BetaOf(v, run, attempt), NextOf(v))
  {
    var beta, next := BetaOf(v, run, attempt), NextOf(v);
    assert LexLess(Key(v)[1..][1..], Key(beta)[1..][1..]);
    assert LexLess(Key(beta)[1..][1..][1..], Key(next)[1..][1..][1..]);
  }

  /** Betas of one base are ordered by run number, then by attempt, as numbers. */
  lemma {:induction false} BetasFollowRuns(v: Identity, a: Identity, b: Identity)
    requires Wellformed(v) && Wellformed(a) && Wellformed(b) && a.Beta? && b.Beta?
    requires a == BetaOf(v, a.run, a.attempt) && b == BetaOf(v, b.run, b.attempt)
    ensures Precedes(a, b) <==>
      Number(a.run) < Number(b.run) || (Number(a.run) == Number(b.run) && Number(a.attempt) < Number(b.attempt))
  {
    var same := [Number(a.major), Number(a.minor), Number(a.patch), 0];
    assert Key(a) == same + [Number(a.run), Number(a.attempt)];
    assert Key(b) == same + [Number(b.run), Number(b.attempt)];
    LexAfter(same, [Number(a.run), Number(a.attempt)], [Number(b.run), Number(b.attempt)]);
    LexPair(Number(a.run), Number(a.attempt), Number(b.run), Number(b.attempt));
  }

  lemma {:induction false} LexAfter(same: seq<nat>, a: seq<nat>, b: seq<nat>)
    ensures LexLess(same + a, same + b) <==> LexLess(a, b)
  {
    if |same| == 0 {
      assert same + a == a && same + b == b;
    } else {
      LexAfter(same[1..], a, b);
      assert (same + a)[1..] == same[1..] + a && (same + b)[1..] == same[1..] + b;
    }
  }

  lemma {:induction false} LexPair(a: nat, b: nat, c: nat, d: nat)
    ensures LexLess([a, b], [c, d]) <==> a < c || (a == c && b < d)
  {
    assert [a, b][1..] == [b] && [c, d][1..] == [d];
    assert !LexLess([b][1..], [d][1..]);
    assert LexLess([b], [d]) <==> b < d;
  }

  // The text of a stable version.
  ghost predicate IsStableText(s: string) { exists v :: Wellformed(v) && v.Stable? && Text(v) == s }

  /** Only a stable version has a next version and betas, and betas only for positive canonical counters. */
  lemma {:induction false} OnlyStableHasNext(s: string, run: string, attempt: string)
    ensures NextVersion(s).Some? <==> IsStableText(s)
    ensures BetaVersion(s, run, attempt).Some? <==> IsStableText(s) && Positive(run) && Positive(attempt)
  {
    if Parse(s).Some? {
      ParsedIsText(s);
    }
    if v :| Wellformed(v) && v.Stable? && Text(v) == s {
      TextParses(v);
    }
  }

  /** The next version is the least stable version after a version, and its betas come after every stable version
      up to that one. */
  lemma {:induction false} NextIsLeast(v: Identity, w: Identity, run: string, attempt: string)
    requires Wellformed(v) && v.Stable? && Wellformed(w) && w.Stable? && Positive(run) && Positive(attempt)
    ensures Wellformed(NextOf(v)) && Wellformed(BetaOf(v, run, attempt))
    ensures ComesBefore(v, NextOf(v)) && (ComesBefore(v, w) ==> w == NextOf(v) || ComesBefore(NextOf(v), w))
    ensures ComesBefore(BetaOf(v, run, attempt), w) <==> ComesBefore(v, w)
    ensures BetaOf(v, run, attempt).run == run && BetaOf(v, run, attempt).attempt == attempt
  {
    NextIsNext(v);
    var next := NextOf(v);
    if next.patch != w.patch && Number(next.patch) == Number(w.patch) {
      CanonicalUnique(next.patch, w.patch);
    }
    if v.patch != w.patch && Number(v.patch) == Number(w.patch) {
      CanonicalUnique(v.patch, w.patch);
    }
  }

  /** How identities are written. */
  lemma {:induction false} TextIs(a: string, b: string, c: string, d: string, e: string)
    ensures Text(Stable(a, b, c)) == a + "." + b + "." + c
    ensures Text(Beta(a, b, c, d, e)) == a + "." + b + "." + c + "-beta." + d + "." + e
  {
  }
}
