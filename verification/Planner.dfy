/** Planning: splitting a question into sub-queries. */
module Planner {
  import opened Domain
  import opened Text

  const MAX_PLANNED := 3

  /** The punctuation that separates sub-questions. */
  predicate IsPunctuation(c: char) {
    c in {'\U{FF0C}', ',', '\U{FF1B}', ';', '\U{3002}', '?', '\U{FF1F}'}
  }

  /** Trimmed, blanks dropped. */
  function TrimmedParts(parts: seq<string>, n: nat): seq<string>
    requires n <= |parts|
  {
    if n == 0 then []
    else TrimmedParts(parts, n - 1) + if Blank(parts[n - 1]) then [] else [TrimSpace(parts[n - 1])]
  }

  /** The pieces between punctuation, or the whole question when nothing is left. */
  function PunctuationSplit(question: string): seq<string> {
    var parts := Fields(question, IsPunctuation);
    var kept := TrimmedParts(parts, |parts|);
    if kept == [] then [question] else kept
  }

  method SplitByPunct(question: string) returns (out: seq<string>)
    ensures out == PunctuationSplit(question)
  {
    hide Blank, TrimSpace, Fields, IsPunctuation;
    var parts := Fields(question, IsPunctuation);
    out := [];
    for i := 0 to |parts|
      invariant out == TrimmedParts(parts, i)
    {
      var p := TrimSpace(parts[i]);
      BlankMeaning(parts[i]);
      if p != "" { out := out + [p]; }
    }
    if |out| == 0 { out := [question]; }
  }

  lemma BlankMeaning(s: string)
    ensures Blank(s) <==> TrimSpace(s) == ""
  {
  }

  /** The first three distinct non-blank entries of the first n, trimmed. */
  function Cleaned(subs: seq<string>, n: nat): (clean: seq<string>)
    requires n <= |subs|
    ensures |clean| <= MAX_PLANNED
  {
    if n == 0 then []
    else
      var before := Cleaned(subs, n - 1);
      var t := TrimSpace(subs[n - 1]);
      if |before| == MAX_PLANNED || t == "" || t in before then before else before + [t]
  }

  method CleanSubQueries(subs: seq<string>) returns (clean: seq<string>)
    ensures clean == Cleaned(subs, |subs|)
  {
    hide TrimSpace;
    clean := [];
    for i := 0 to |subs|
      invariant clean == Cleaned(subs, i) && |clean| < MAX_PLANNED
    {
      var t := TrimSpace(subs[i]);
      if t == "" || t in clean { continue; }
      clean := clean + [t];
      if |clean| >= MAX_PLANNED {
        FullStaysFull(subs, i + 1, |subs|);
        break;
      }
    }
  }

  lemma {:induction false} FullStaysFull(subs: seq<string>, m: nat, n: nat)
    requires m <= n <= |subs| && |Cleaned(subs, m)| == MAX_PLANNED
    ensures Cleaned(subs, n) == Cleaned(subs, m)
  {
    hide TrimSpace;
    if m < n { FullStaysFull(subs, m, n - 1); }
  }

  /** `parse` is JSON decoding into a list of strings. */
  function Plan(question: string, chat: Result<string>, parse: string -> Option<seq<string>>): Result<seq<string>> {
    if chat.Err? then Err(chat.message)
    else if Blank(chat.value) then Ok([question])
    else match parse(TrimSpace(chat.value))
      case None => Ok(PunctuationSplit(question))
      case Some(subs) => if Cleaned(subs, |subs|) == [] then Ok([question]) else Ok(Cleaned(subs, |subs|))
  }

  method PlanSubQueries(question: string, chat: Result<string>, parse: string -> Option<seq<string>>) returns (r: Result<seq<string>>)
    ensures r == Plan(question, chat, parse)
  {
    hide Blank, PunctuationSplit, Cleaned;
    if chat.Err? { return Err(chat.message); }
    var trim := TrimSpace(chat.value);
    BlankMeaning(chat.value);
    if trim == "" { return Ok([question]); }
    var parsed := parse(trim);
    if parsed.None? {
      var parts := SplitByPunct(question);
      return Ok(parts);
    }
    var clean := CleanSubQueries(parsed.value);
    if |clean| == 0 { return Ok([question]); }
    return Ok(clean);
  }

  /** The plan as `Ask` uses it: never empty, cut to the configured maximum. */
  function Planned(question: string, plan: seq<string>, maxSubqueries: int): (queries: seq<string>)
    ensures queries != []
  {
    var subs := if plan == [] then [question] else plan;
    if maxSubqueries > 0 && |subs| > maxSubqueries then subs[..maxSubqueries] else subs
  }

  // ---------------------------------------------------------------- laws

  ghost predicate AllNonBlank(queries: seq<string>) {
    forall i :: 0 <= i < |queries| ==> !Blank(queries[i])
  }

  lemma TrimmedNotBlank(s: string)
    requires !Blank(s)
    ensures !Blank(TrimSpace(s))
  {
    TrimTwice(s);
  }

  lemma {:induction false} PartsNonBlank(parts: seq<string>, n: nat)
    requires n <= |parts|
    ensures AllNonBlank(TrimmedParts(parts, n))
  {
    hide Blank, TrimSpace;
    if n > 0 {
      PartsNonBlank(parts, n - 1);
      if !Blank(parts[n - 1]) { TrimmedNotBlank(parts[n - 1]); }
    }
  }

  /** The cleaned list is non-blank, without repeats, and drawn from the decoded one. */
  lemma {:induction false} CleanedWell(subs: seq<string>, n: nat)
    requires n <= |subs|
    ensures AllNonBlank(Cleaned(subs, n))
    ensures forall i, j :: 0 <= i < j < |Cleaned(subs, n)| ==> Cleaned(subs, n)[i] != Cleaned(subs, n)[j]
    ensures forall t :: t in Cleaned(subs, n) ==> exists i :: 0 <= i < n && t == TrimSpace(subs[i])
  {
    hide Blank, TrimSpace;
    if n > 0 {
      CleanedWell(subs, n - 1);
      BlankMeaning(subs[n - 1]);
      if !Blank(subs[n - 1]) { TrimmedNotBlank(subs[n - 1]); }
    }
  }

  lemma {:induction false} CleanedComplete(subs: seq<string>, n: nat, i: nat)
    requires i < n <= |subs| && !Blank(subs[i])
    ensures |Cleaned(subs, n)| == MAX_PLANNED || TrimSpace(subs[i]) in Cleaned(subs, n)
  {
    hide TrimSpace;
    if i < n - 1 { CleanedComplete(subs, n - 1, i); }
  }

  /** The question is split at these characters, and at no letter, digit, space, full stop or exclamation mark. */
  lemma PunctuationMarks(c: char)
    ensures c == ',' || c == ';' || c == '?' ==> IsPunctuation(c)
    ensures c == '\U{FF0C}' || c == '\U{FF1B}' || c == '\U{3002}' || c == '\U{FF1F}' ==> IsPunctuation(c)
    ensures 'a' <= c <= 'z' || 'A' <= c <= 'Z' || '0' <= c <= '9' || c in {' ', '.', '!', ':'} ==> !IsPunctuation(c)
    ensures '\U{4e00}' <= c <= '\U{9fff}' ==> !IsPunctuation(c)
  {
  }

  /** A failing model fails the plan; a silent one leaves the question as it is. */
  lemma PlanWithoutAnswer(question: string, chat: Result<string>, parse: string -> Option<seq<string>>)
    ensures chat.Err? ==> Plan(question, chat, parse) == Err(chat.message)
    ensures chat.Ok? && Blank(chat.value) ==> Plan(question, chat, parse) == Ok([question])
  {
  }

  /** Looking at more entries only adds to the list. */
  lemma {:induction false} CleanedGrows(subs: seq<string>, m: nat, n: nat)
    requires m <= n <= |subs|
    ensures Cleaned(subs, m) <= Cleaned(subs, n)
  {
    hide TrimSpace;
    if m < n { CleanedGrows(subs, m, n - 1); }
  }

  lemma {:induction false} NothingClean(subs: seq<string>, n: nat)
    requires n <= |subs| && forall i :: 0 <= i < n ==> Blank(subs[i])
    ensures Cleaned(subs, n) == []
  {
    if n > 0 { NothingClean(subs, n - 1); }
  }

  lemma FirstClean(subs: seq<string>, i: nat)
    requires i < |subs| && !Blank(subs[i]) && forall k :: 0 <= k < i ==> Blank(subs[k])
    ensures Cleaned(subs, |subs|) != [] && Cleaned(subs, |subs|)[0] == TrimSpace(subs[i])
  {
    hide Blank, TrimSpace, Cleaned;
    NothingClean(subs, i);
    CleanOne(subs, i);
    CleanedGrows(subs, i + 1, |subs|);
  }

  lemma CleanOne(subs: seq<string>, i: nat)
    requires i < |subs| && !Blank(subs[i]) && Cleaned(subs, i) == []
    ensures Cleaned(subs, i + 1) == [TrimSpace(subs[i])]
  {
    hide TrimSpace;
  }

  /**
   * A readable plan is used: it starts with the first entry that is not blank, and holds every such entry
   * unless there are three; without any, the question stands for itself.
   */
  lemma ReadablePlan(question: string, chat: Result<string>, parse: string -> Option<seq<string>>)
    requires chat.Ok? && !Blank(chat.value) && parse(TrimSpace(chat.value)).Some?
    ensures var subs, plan := parse(TrimSpace(chat.value)).value, Plan(question, chat, parse);
            && plan.Ok?
            && ((forall i :: 0 <= i < |subs| ==> Blank(subs[i])) ==> plan.value == [question])
            && (forall i :: 0 <= i < |subs| && !Blank(subs[i]) ==> TrimSpace(subs[i]) in plan.value || |plan.value| == 3)
            && (forall i :: 0 <= i < |subs| && !Blank(subs[i]) && (forall k :: 0 <= k < i ==> Blank(subs[k])) ==>
                  plan.value != [] && plan.value[0] == TrimSpace(subs[i]))
  {
    hide Blank, TrimSpace, PunctuationSplit, Cleaned;
    var subs := parse(TrimSpace(chat.value)).value;
    if forall i :: 0 <= i < |subs| ==> Blank(subs[i]) { NothingClean(subs, |subs|); }
    forall i | 0 <= i < |subs| && !Blank(subs[i])
      ensures Cleaned(subs, |subs|) != [] && (TrimSpace(subs[i]) in Cleaned(subs, |subs|) || |Cleaned(subs, |subs|)| == 3)
    {
      CleanedComplete(subs, |subs|, i);
    }
    forall i | 0 <= i < |subs| && !Blank(subs[i]) && forall k :: 0 <= k < i ==> Blank(subs[k])
      ensures Cleaned(subs, |subs|) != [] && Cleaned(subs, |subs|)[0] == TrimSpace(subs[i])
    {
      FirstClean(subs, i);
    }
  }

  lemma {:induction false} PartOrigin(parts: seq<string>, n: nat, t: string)
    requires n <= |parts|
    ensures t in TrimmedParts(parts, n) <==> exists i :: 0 <= i < n && !Blank(parts[i]) && t == TrimSpace(parts[i])
  {
    hide Blank, TrimSpace, TrimmedParts;
    PartsOneMore(parts, n);
    if n > 0 { PartOrigin(parts, n - 1, t); }
  }

  lemma PartsOneMore(parts: seq<string>, n: nat)
    requires n <= |parts|
    ensures n == 0 ==> TrimmedParts(parts, n) == []
    ensures n > 0 ==>
              TrimmedParts(parts, n) == TrimmedParts(parts, n - 1) + if Blank(parts[n - 1]) then [] else [TrimSpace(parts[n - 1])]
  {
  }

  /** An unreadable plan splits the question: exactly its trimmed stretches between punctuation, or itself. */
  lemma UnreadablePlan(question: string, chat: Result<string>, parse: string -> Option<seq<string>>, t: string)
    requires chat.Ok? && !Blank(chat.value) && parse(TrimSpace(chat.value)).None?
    ensures Plan(question, chat, parse).Ok?
    ensures var whole := forall f :: IsField(question, IsPunctuation, f) ==> Blank(f);
            t in Plan(question, chat, parse).value <==>
            if whole then t == question else exists f :: IsField(question, IsPunctuation, f) && !Blank(f) && t == TrimSpace(f)
  {
    hide Blank, TrimSpace, IsPunctuation, IsField, Fields;
    var parts := Fields(question, IsPunctuation);
    forall f
      ensures f in parts <==> IsField(question, IsPunctuation, f)
    {
      FieldsAreMaximal(question, IsPunctuation, f);
    }
    PartOrigin(parts, |parts|, t);
    if TrimmedParts(parts, |parts|) != [] { PartOrigin(parts, |parts|, TrimmedParts(parts, |parts|)[0]); }
    forall i | 0 <= i < |parts| && !Blank(parts[i])
      ensures TrimmedParts(parts, |parts|) != []
    {
      PartOrigin(parts, |parts|, TrimSpace(parts[i]));
    }
  }

  /** The planned sub-queries are the first of the plan, as many as allowed. */
  lemma PlannedIsPrefix(question: string, plan: seq<string>, maxSubqueries: int)
    requires plan != []
    ensures var queries := Planned(question, plan, maxSubqueries);
            queries <= plan && |queries| == if 0 < maxSubqueries < |plan| then maxSubqueries else |plan|
  {
  }

  /**
   * For a question that is not blank and a positive maximum, whatever the model answers, between one
   * and the maximum sub-queries are planned and none is blank.
   */
  lemma PlanIsUsable(question: string, chat: Result<string>, parse: string -> Option<seq<string>>, maxSubqueries: int)
    requires !Blank(question) && maxSubqueries > 0 && Plan(question, chat, parse).Ok?
    ensures var queries := Planned(question, Plan(question, chat, parse).value, maxSubqueries);
            1 <= |queries| <= maxSubqueries && AllNonBlank(queries)
  {
    hide Blank, TrimSpace, IsPunctuation, TrimmedParts, Cleaned;
    var parts := Fields(question, IsPunctuation);
    PartsNonBlank(parts, |parts|);
    var parsed := parse(TrimSpace(chat.value));
    if parsed.Some? { CleanedWell(parsed.value, |parsed.value|); }
  }
}
