/** The string operations of Go's `strings` package that the code relies on. */
module Text {

  /** The white space of `unicode.IsSpace`. */
  predicate IsSpace(c: char) {
    || '\t' <= c <= '\r'
    || c in {' ', '\U{0085}', '\U{00A0}', '\U{1680}', '\U{2028}', '\U{2029}', '\U{202F}', '\U{205F}', '\U{3000}'}
    || '\U{2000}' <= c <= '\U{200A}'
  }

  /** How many white-space characters s starts with. */
  function Lead(s: string): (n: nat)
    ensures n <= |s|
    ensures forall i :: 0 <= i < n ==> IsSpace(s[i])
    ensures n < |s| ==> !IsSpace(s[n])
  {
    if s == [] || !IsSpace(s[0]) then 0 else 1 + Lead(s[1..])
  }

  /** Where the trailing white space of s starts. */
  function Trail(s: string): (n: nat)
    ensures n <= |s|
    ensures forall i :: n <= i < |s| ==> IsSpace(s[i])
    ensures n > 0 ==> !IsSpace(s[n - 1])
  {
    if s == [] || !IsSpace(s[|s| - 1]) then |s| else Trail(s[..|s| - 1])
  }

  /** `strings.TrimSpace`. */
  function TrimSpace(s: string): (t: string)
    ensures t == [] <==> forall i :: 0 <= i < |s| ==> IsSpace(s[i])
    ensures t != [] ==> Lead(s) < Trail(s) && t == s[Lead(s)..Trail(s)]
    ensures t != [] ==> !IsSpace(t[0]) && !IsSpace(t[|t| - 1])
  {
    if Lead(s) < Trail(s) then
      assert !IsSpace(s[Lead(s)]);
      s[Lead(s)..Trail(s)]
    else
      assert forall i :: 0 <= i < |s| ==> IsSpace(s[i]) by { assert Trail(s) <= Lead(s); }
      []
  }

  predicate Blank(s: string) { TrimSpace(s) == [] }

  lemma TrimOfTrimmed(s: string)
    requires s == [] || (!IsSpace(s[0]) && !IsSpace(s[|s| - 1]))
    ensures TrimSpace(s) == s
  {
    if s != [] {
      assert Lead(s) == 0 && Trail(s) == |s|;
      assert s[0..|s|] == s;
    }
  }

  lemma TrimTwice(s: string)
    ensures TrimSpace(TrimSpace(s)) == TrimSpace(s)
  {
    TrimOfTrimmed(TrimSpace(s));
  }

  /** How many characters s starts with that are not separators. */
  function Run(s: string, isSep: char -> bool): (n: nat)
    ensures n <= |s|
    ensures forall i :: 0 <= i < n ==> !isSep(s[i])
    ensures n < |s| ==> isSep(s[n])
  {
    if s == [] || isSep(s[0]) then 0 else 1 + Run(s[1..], isSep)
  }

  /** `strings.FieldsFunc`: the maximal separator-free pieces of s, in order. */
  function Fields(s: string, isSep: char -> bool): (fields: seq<string>)
    ensures forall f :: f in fields ==> f != [] && forall i :: 0 <= i < |f| ==> !isSep(f[i])
    ensures fields == [] <==> forall i :: 0 <= i < |s| ==> isSep(s[i])
    decreases |s|
  {
    if s == [] then []
    else if isSep(s[0]) then
      assert forall i :: 0 < i < |s| ==> s[i] == s[1..][i - 1];
      Fields(s[1..], isSep)
    else
      [s[..Run(s, isSep)]] + Fields(s[Run(s, isSep)..], isSep)
  }

  /** f is a separator-free stretch of s from position i on, bounded by separators or the ends of s. */
  ghost predicate IsFieldAt(s: string, isSep: char -> bool, f: string, i: nat) {
    && f != [] && i + |f| <= |s| && s[i..i + |f|] == f
    && (forall k :: i <= k < i + |f| ==> !isSep(s[k]))
    && (i == 0 || isSep(s[i - 1]))
    && (i + |f| == |s| || isSep(s[i + |f|]))
  }

  ghost predicate IsField(s: string, isSep: char -> bool, f: string) {
    exists i: nat :: IsFieldAt(s, isSep, f, i)
  }

  lemma ShiftedField(s: string, isSep: char -> bool, n: nat, f: string, i: nat)
    requires 0 < n <= i <= |s| && (i > n || isSep(s[n - 1]))
    ensures IsFieldAt(s, isSep, f, i) <==> IsFieldAt(s[n..], isSep, f, i - n)
  {
    var t := s[n..];
    assert forall k :: n <= k < |s| ==> s[k] == t[k - n];
    if i + |f| <= |s| { assert s[i..i + |f|] == t[i - n..i - n + |f|]; }
  }

  /** Only the first run starts before its end. */
  lemma FirstField(s: string, isSep: char -> bool, f: string, i: nat)
    requires s != [] && !isSep(s[0]) && i <= Run(s, isSep) && IsFieldAt(s, isSep, f, i)
    ensures i == 0 && f == s[..Run(s, isSep)]
  {
    assert i == 0;
    assert |f| == Run(s, isSep);
  }

  /** The fields are exactly the maximal separator-free stretches. */
  lemma {:induction false} FieldsAreMaximal(s: string, isSep: char -> bool, f: string)
    ensures f in Fields(s, isSep) <==> IsField(s, isSep, f)
    decreases |s|
  {
    hide IsFieldAt, Run;
    if s == [] {
      NoFieldPastEnd(s, isSep, f);
    } else if isSep(s[0]) {
      FieldsAreMaximal(s[1..], isSep, f);
      RestOfFields(s, isSep, 1, f);
      NoFieldAtSeparator(s, isSep, f);
    } else {
      var n := Run(s, isSep);
      FieldsAreMaximal(s[n..], isSep, f);
      RestOfFields(s, isSep, n, f);
      FirstRun(s, isSep, f);
    }
  }

  lemma NoFieldPastEnd(s: string, isSep: char -> bool, f: string)
    ensures forall i: nat :: IsFieldAt(s, isSep, f, i) ==> i < |s|
  {
  }

  lemma NoFieldAtSeparator(s: string, isSep: char -> bool, f: string)
    requires s != [] && isSep(s[0])
    ensures !IsFieldAt(s, isSep, f, 0)
  {
  }

  lemma FirstRun(s: string, isSep: char -> bool, f: string)
    requires s != [] && !isSep(s[0])
    ensures IsFieldAt(s, isSep, f, 0) <==> f == s[..Run(s, isSep)]
    ensures forall i: nat :: 0 < i <= Run(s, isSep) ==> !IsFieldAt(s, isSep, f, i)
  {
    hide IsFieldAt;
    if IsFieldAt(s, isSep, f, 0) { FirstField(s, isSep, f, 0); }
    if f == s[..Run(s, isSep)] { RunIsField(s, isSep); }
    forall i: nat | 0 < i <= Run(s, isSep)
      ensures !IsFieldAt(s, isSep, f, i)
    {
      if IsFieldAt(s, isSep, f, i) { FirstField(s, isSep, f, i); }
    }
  }

  lemma RunIsField(s: string, isSep: char -> bool)
    requires s != [] && !isSep(s[0])
    ensures IsFieldAt(s, isSep, s[..Run(s, isSep)], 0)
  {
  }

  /** The fields of s that start after its first n characters are the fields of the rest. */
  lemma RestOfFields(s: string, isSep: char -> bool, n: nat, f: string)
    requires 0 < n <= |s| && (n < |s| && !isSep(s[n - 1]) ==> isSep(s[n]))
    ensures IsField(s[n..], isSep, f) <==>
            exists i: nat :: n <= i && IsFieldAt(s, isSep, f, i) && (i > n || isSep(s[n - 1]))
  {
    hide IsFieldAt;
    NoFieldPastEnd(s, isSep, f);
    NoFieldPastEnd(s[n..], isSep, f);
    if IsField(s[n..], isSep, f) {
      var j: nat :| IsFieldAt(s[n..], isSep, f, j);
      if j == 0 && !isSep(s[n - 1]) { NoFieldAtSeparator(s[n..], isSep, f); }
      ShiftedField(s, isSep, n, f, n + j);
    }
    if i: nat :| n <= i && IsFieldAt(s, isSep, f, i) && (i > n || isSep(s[n - 1])) {
      ShiftedField(s, isSep, n, f, i);
    }
  }
}
