/** Properties of a sequence of code units read against the token's source:
    where each unit came from, how consecutive units are laid out, and which
    used-feature flags a unit stands for. */
module UnitSequences {
  import opened Chars
  import opened Results
  import opened CodeUnits
  import opened Escapes

  /** The unit's `source` is the input text from `start` to `end`. */
  predicate FromInput(u: CodeUnit, input: Str) {
    0 <= u.start && End(u) <= |input| && input[u.start..End(u)] == u.source
  }

  /** `a` and `b` are the `high` and `low` halves of one surrogate pair:
      same start, same source, one surrogate code unit each. */
  predicate IsPair(a: CodeUnit, b: CodeUnit) {
    a.surrogate == Some(HIGH) && b.surrogate == Some(LOW) &&
    a.start == b.start && a.source == b.source &&
    |a.character| == 1 && |b.character| == 1 &&
    IsHighSurrogate(a.character[0]) && IsLowSurrogate(b.character[0])
  }

  /** `b` may come right after `a`: the two halves of a pair, or `b` starts
      where `a` ends or later. */
  predicate Follows(a: CodeUnit, b: CodeUnit) {
    IsPair(a, b) || End(a) <= b.start
  }

  /** Every unit is one code unit taken from `input[lo..hi]`, consecutive
      units follow each other, and the `high`/`low` tags occur exactly as
      the halves of pairs. */
  predicate WellFormed(us: seq<CodeUnit>, input: Str, lo: int, hi: int) {
    (forall i :: 0 <= i < |us| ==>
      FromInput(us[i], input) && lo <= us[i].start && End(us[i]) <= hi &&
      |us[i].character| == 1 && |us[i].source| >= 1 &&
      (us[i].surrogate == None || us[i].surrogate == Some(HIGH) || us[i].surrogate == Some(LOW))) &&
    (forall i :: 0 <= i < |us| - 1 ==> Follows(us[i], us[i + 1])) &&
    (forall i :: 0 <= i < |us| && us[i].surrogate == Some(HIGH) ==> i + 1 < |us| && IsPair(us[i], us[i + 1])) &&
    (forall i :: 0 <= i < |us| && us[i].surrogate == Some(LOW) ==> 0 < i && IsPair(us[i - 1], us[i]))
  }

  lemma EmptyWellFormed(input: Str, lo: int, hi: int)
    ensures WellFormed([], input, lo, hi)
  {
  }

  /** Widening the window keeps a sequence well formed. */
  lemma WidenWellFormed(us: seq<CodeUnit>, input: Str, lo: int, hi: int, lo': int, hi': int)
    requires WellFormed(us, input, lo, hi) && lo' <= lo && hi <= hi'
    ensures WellFormed(us, input, lo', hi')
  {
  }

  /** Two well-formed sequences from adjacent windows concatenate to one. */
  lemma AppendWellFormed(us: seq<CodeUnit>, vs: seq<CodeUnit>, input: Str, lo: int, mid: int, hi: int)
    requires lo <= mid <= hi && WellFormed(us, input, lo, mid) && WellFormed(vs, input, mid, hi)
    ensures WellFormed(us + vs, input, lo, hi)
  {
    var ws := us + vs;
    assert forall i :: 0 <= i < |us| ==> ws[i] == us[i];
    assert forall i :: |us| <= i < |ws| ==> ws[i] == vs[i - |us|];
    forall i | 0 <= i < |ws|
      ensures FromInput(ws[i], input) && lo <= ws[i].start && End(ws[i]) <= hi
    {
      if i < |us| {
        assert End(us[i]) <= mid;
      } else {
        assert mid <= vs[i - |us|].start;
      }
    }
    forall i | 0 <= i < |ws| - 1
      ensures Follows(ws[i], ws[i + 1])
    {
      if i + 1 < |us| {
        assert ws[i] == us[i] && ws[i + 1] == us[i + 1];
      } else if i + 1 == |us| {
        assert ws[i] == us[i] && ws[i + 1] == vs[0];
        assert End(us[i]) <= mid <= vs[0].start;
      } else {
        assert ws[i] == vs[i - |us|] && ws[i + 1] == vs[i + 1 - |us|];
      }
    }
    forall i | 0 <= i < |ws| && ws[i].surrogate == Some(HIGH)
      ensures i + 1 < |ws| && IsPair(ws[i], ws[i + 1])
    {
      if i < |us| {
        assert ws[i] == us[i] && ws[i + 1] == us[i + 1];
      } else {
        assert ws[i] == vs[i - |us|] && ws[i + 1] == vs[i + 1 - |us|];
      }
    }
    forall i | 0 <= i < |ws| && ws[i].surrogate == Some(LOW)
      ensures 0 < i && IsPair(ws[i - 1], ws[i])
    {
      if i < |us| {
        assert ws[i] == us[i] && ws[i - 1] == us[i - 1];
      } else {
        assert ws[i] == vs[i - |us|] && i - |us| > 0;
        assert ws[i - 1] == vs[i - 1 - |us|];
      }
    }
  }

  /** One untagged unit inside the window is well formed on its own. */
  lemma SingleWellFormed(u: CodeUnit, input: Str, lo: int, hi: int)
    requires FromInput(u, input) && lo <= u.start && End(u) <= hi
    requires |u.character| == 1 && |u.source| >= 1 && u.surrogate == None
    ensures WellFormed([u], input, lo, hi)
  {
  }

  /** In a well-formed sequence starts never decrease, and only the two
      halves of a pair share a start. */
  lemma {:induction false} StartsOrdered(us: seq<CodeUnit>, input: Str, lo: int, hi: int, i: nat, j: nat)
    requires WellFormed(us, input, lo, hi) && i < j < |us|
    ensures us[i].start <= us[j].start
    ensures us[i].start == us[j].start ==> j == i + 1 && IsPair(us[i], us[j])
    decreases j - i
  {
    assert Follows(us[j - 1], us[j]);
    if j > i + 1 {
      StartsOrdered(us, input, lo, hi, i, j - 1);
    }
  }

  /** Joining two summaries flag by flag. */
  function Join(a: Features, b: Features): Features
  {
    Features(a.codePointEscape || b.codePointEscape, a.lineTerminator || b.lineTerminator, a.octalEscape || b.octalEscape)
  }

  /** A unit read from a raw U+2028 or U+2029. */
  predicate LineTerminatorUnit(u: CodeUnit) {
    u.source == [LS] || u.source == [PS]
  }

  /** A unit read from a `\u{…}` escape. */
  predicate CodePointEscapeUnit(u: CodeUnit) {
    |u.source| >= 3 && u.source[0] == BACKSLASH && u.source[1] == LOWER_U && u.source[2] == LEFT_BRACE
  }

  /** A unit read from a legacy octal escape or `\8`/`\9`: a backslash and a
      decimal digit, except `\0` that no decimal digit follows in `input`. */
  predicate OctalEscapeUnit(u: CodeUnit, input: Str) {
    |u.source| >= 2 && u.source[0] == BACKSLASH && IsDecimalDigit(u.source[1]) &&
    !(u.source == [BACKSLASH, DIGIT_0] && !(0 <= End(u) < |input| && IsDecimalDigit(input[End(u)])))
  }

  /** The flags one unit stands for. */
  function UnitFeatures(u: CodeUnit, input: Str): Features
  {
    Features(CodePointEscapeUnit(u), LineTerminatorUnit(u), OctalEscapeUnit(u, input))
  }

  /** The flags a sequence of units stands for: the join over its units. */
  function FeaturesOf(us: seq<CodeUnit>, input: Str): Features
    decreases |us|
  {
    if |us| == 0 then NO_FEATURES
    else Join(FeaturesOf(us[..|us| - 1], input), UnitFeatures(us[|us| - 1], input))
  }

  /** The summary of a concatenation joins the summaries of its parts. */
  lemma {:induction false} FeaturesOfAppend(us: seq<CodeUnit>, vs: seq<CodeUnit>, input: Str)
    ensures FeaturesOf(us + vs, input) == Join(FeaturesOf(us, input), FeaturesOf(vs, input))
    decreases |vs|
  {
    if |vs| == 0 {
      assert us + vs == us;
    } else {
      var init := vs[..|vs| - 1];
      assert (us + vs)[..|us + vs| - 1] == us + init;
      assert (us + vs)[|us + vs| - 1] == vs[|vs| - 1];
      FeaturesOfAppend(us, init, input);
    }
  }

  /** Each flag of the summary holds exactly when some unit stands for it. */
  lemma {:induction false} FeaturesOfMeans(us: seq<CodeUnit>, input: Str)
    ensures FeaturesOf(us, input).codePointEscape <==> exists i :: 0 <= i < |us| && CodePointEscapeUnit(us[i])
    ensures FeaturesOf(us, input).lineTerminator <==> exists i :: 0 <= i < |us| && LineTerminatorUnit(us[i])
    ensures FeaturesOf(us, input).octalEscape <==> exists i :: 0 <= i < |us| && OctalEscapeUnit(us[i], input)
    decreases |us|
  {
    if |us| > 0 {
      var init := us[..|us| - 1];
      FeaturesOfMeans(init, input);
      assert forall i :: 0 <= i < |init| ==> init[i] == us[i];
      var last := |us| - 1;
      if exists i :: 0 <= i < |us| && CodePointEscapeUnit(us[i]) {
        var i :| 0 <= i < |us| && CodePointEscapeUnit(us[i]);
        if i < last { assert CodePointEscapeUnit(init[i]); }
      }
      if exists i :: 0 <= i < |us| && LineTerminatorUnit(us[i]) {
        var i :| 0 <= i < |us| && LineTerminatorUnit(us[i]);
        if i < last { assert LineTerminatorUnit(init[i]); }
      }
      if exists i :: 0 <= i < |us| && OctalEscapeUnit(us[i], input) {
        var i :| 0 <= i < |us| && OctalEscapeUnit(us[i], input);
        if i < last { assert OctalEscapeUnit(init[i], input); }
      }
    }
  }
}
