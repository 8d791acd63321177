/**
 How a tool call finds the source it acts for: `AttemptScope.select` walks the attempt's sources in
 order and stops at the first directive that is not consumed.
 */
module DirectiveSelection {
  import opened Common

  type ContextId = nat

  datatype Directive = NoDirective | Pass | Collect | To | Malformed

  /** A source of the attempt; `admitted` unless it is pending, failed or superseded. */
  datatype Source = Source(context: ContextId, admitted: bool, directive: Directive)

  datatype Selection =
    | NoSources
    | Ordinary(primary: ContextId)
    | Exhausted
    | Mismatch(required: Directive)
    | Rejected
    | Directed(context: ContextId)

  predicate IsOpen(source: Source, consumed: set<ContextId>)
  {
    source.admitted && source.directive != NoDirective && source.context !in consumed
  }

  /** The directives still to be served, oldest first. */
  function Open(sources: seq<Source>, consumed: set<ContextId>): seq<Source>
  {
    if sources == [] then []
    else if IsOpen(sources[0], consumed) then [sources[0]] + Open(sources[1..], consumed)
    else Open(sources[1..], consumed)
  }

  function Verdict(source: Source, expected: Directive): Selection
  {
    if source.directive == Malformed || source.directive == To then Rejected
    else if source.directive != expected then Mismatch(source.directive)
    else Directed(source.context)
  }

  predicate Asked(sources: seq<Source>, expected: Directive)
  {
    exists i :: 0 <= i < |sources| && sources[i].admitted && sources[i].directive == expected
  }

  function FirstAdmitted(sources: seq<Source>): (i: nat)
    ensures i <= |sources| && (i < |sources| ==> sources[i].admitted)
    ensures forall j :: 0 <= j < i ==> !sources[j].admitted
  {
    if sources == [] || sources[0].admitted then 0 else 1 + FirstAdmitted(sources[1..])
  }

  /** The specification: the first open directive decides, and without one the call is an ordinary one
      unless a directive of its kind was already served. */
  function Select(sources: seq<Source>, consumed: set<ContextId>, expected: Directive): Selection
  {
    var primary := FirstAdmitted(sources);
    if primary == |sources| then NoSources
    else if Open(sources, consumed) != [] then Verdict(Open(sources, consumed)[0], expected)
    else if Asked(sources, expected) then Exhausted
    else Ordinary(sources[primary].context)
  }

  lemma {:induction false} OpenFacts(sources: seq<Source>, consumed: set<ContextId>)
    ensures forall s :: s in Open(sources, consumed) <==> s in sources && IsOpen(s, consumed)
  {
    if sources != [] {
      OpenFacts(sources[1..], consumed);
      assert sources == [sources[0]] + sources[1..];
    }
  }

  /** Closed sources in front do not matter. */
  lemma {:induction false} SkipClosed(sources: seq<Source>, consumed: set<ContextId>, i: nat)
    requires i <= |sources| && forall j :: 0 <= j < i ==> !IsOpen(sources[j], consumed)
    ensures Open(sources, consumed) == Open(sources[i..], consumed)
  {
    if i > 0 {
      SkipClosed(sources[1..], consumed, i - 1);
      assert sources[1..][i - 1..] == sources[i..];
    } else {
      assert sources[0..] == sources;
    }
  }

  /** `select`: one walk over the admitted sources. */
  method SelectSource(sources: seq<Source>, consumed: set<ContextId>, expected: Directive) returns (r: Selection)
    requires expected == Pass || expected == Collect
    ensures r == Select(sources, consumed, expected)
  {
    var primary := FirstAdmitted(sources);
    if primary == |sources| { return NoSources; }
    var sawExpected := false;
    for i := 0 to |sources|
      invariant sawExpected <==> Asked(sources[..i], expected)
      invariant forall j :: 0 <= j < i ==> !IsOpen(sources[j], consumed)
    {
      SkipClosed(sources, consumed, i);
      assert sources[..i + 1] == sources[..i] + [sources[i]];
      if sources[i].admitted && sources[i].directive == expected {
        assert sources[..i + 1][i] == sources[i];
        sawExpected := true;
      }
      if sources[i].admitted && sources[i].directive != NoDirective && sources[i].context !in consumed {
        return Verdict(sources[i], expected);
      }
    }
    assert sources[..|sources|] == sources;
    SkipClosed(sources, consumed, |sources|);
    if sawExpected { return Exhausted; }
    return Ordinary(sources[primary].context);
  }

  /** The first source whose directive is still to be served stands at `i`. */
  predicate FirstOpenAt(sources: seq<Source>, consumed: set<ContextId>, i: nat)
  {
    i < |sources| && sources[i].admitted && sources[i].directive != NoDirective && sources[i].context !in consumed
    && forall j :: 0 <= j < i ==> !(sources[j].admitted && sources[j].directive != NoDirective && sources[j].context !in consumed)
  }

  predicate FirstAdmittedAt(sources: seq<Source>, i: nat)
  {
    i < |sources| && sources[i].admitted && forall j :: 0 <= j < i ==> !sources[j].admitted
  }

  /** What a call is resolved to, from the sources alone: the first directive that is still to be served
      decides, by its own kind; with none left, a call of a kind that was asked for is too late, and any
      other belongs to the first admitted source. */
  lemma SelectedIs(sources: seq<Source>, consumed: set<ContextId>, expected: Directive, i: nat)
    ensures (Select(sources, consumed, expected) == NoSources <==> forall s <- sources :: !s.admitted)
    ensures FirstOpenAt(sources, consumed, i) ==>
      Select(sources, consumed, expected) ==
        (if sources[i].directive == Malformed || sources[i].directive == To then Rejected
         else if sources[i].directive == expected then Directed(sources[i].context) else Mismatch(sources[i].directive))
    ensures FirstAdmittedAt(sources, i) && (forall j: nat :: !FirstOpenAt(sources, consumed, j)) ==>
      Select(sources, consumed, expected) ==
        if exists s <- sources :: s.admitted && s.directive == expected then Exhausted else Ordinary(sources[i].context)
  {
    var primary := FirstAdmitted(sources);
    if primary < |sources| { assert sources[primary] in sources; }
    if FirstOpenAt(sources, consumed, i) {
      SkipClosed(sources, consumed, i);
      assert sources[i] in sources && sources[i..][0] == sources[i];
    }
    if FirstAdmittedAt(sources, i) {
      assert i == primary;
      OpenFacts(sources, consumed);
      if Open(sources, consumed) != [] {
        var k := FirstOpen(sources, consumed);
        assert FirstOpenAt(sources, consumed, k);
      }
      if Asked(sources, expected) {
        var k :| 0 <= k < |sources| && sources[k].admitted && sources[k].directive == expected;
        assert sources[k] in sources;
      }
    }
  }

  lemma {:induction false} FirstOpen(sources: seq<Source>, consumed: set<ContextId>) returns (k: nat)
    requires Open(sources, consumed) != []
    ensures FirstOpenAt(sources, consumed, k)
  {
    if IsOpen(sources[0], consumed) {
      k := 0;
    } else {
      var rest := FirstOpen(sources[1..], consumed);
      k := rest + 1;
      forall j | 0 <= j < k
        ensures !IsOpen(sources[j], consumed)
      {
        if j > 0 { assert sources[1..][j - 1] == sources[j]; }
      }
    }
  }

  // ---------------------------------------------------------------- a whole row of calls

  predicate Distinct(sources: seq<Source>)
  {
    forall i, j :: 0 <= i < j < |sources| ==> sources[i].context != sources[j].context
  }

  lemma {:induction false} OpenUnder(sources: seq<Source>, consumed: set<ContextId>, more: ContextId)
    requires forall s :: s in sources ==> s.context != more
    ensures Open(sources, consumed + {more}) == Open(sources, consumed)
  {
    if sources != [] { OpenUnder(sources[1..], consumed, more); }
  }

  /** Consuming the first open directive leaves the others, in order. */
  lemma {:induction false} OpenAfterFirst(sources: seq<Source>, consumed: set<ContextId>)
    requires Distinct(sources) && Open(sources, consumed) != []
    ensures Open(sources, consumed + {Open(sources, consumed)[0].context}) == Open(sources, consumed)[1..]
  {
    if IsOpen(sources[0], consumed) {
      OpenUnder(sources[1..], consumed, sources[0].context);
    } else {
      OpenAfterFirst(sources[1..], consumed);
      OpenFacts(sources[1..], consumed);
      var first := Open(sources[1..], consumed)[0];
      assert first in sources[1..] && first.context != sources[0].context;
    }
  }

  /** Tool calls one after another, each consuming the directive it is given. */
  function Serve(sources: seq<Source>, consumed: set<ContextId>, calls: seq<Directive>): Option<seq<ContextId>>
    decreases |calls|
  {
    if calls == [] then Some([])
    else match Select(sources, consumed, calls[0])
      case Directed(context) =>
        var rest := Serve(sources, consumed + {context}, calls[1..]);
        if rest.Some? then Some([context] + rest.value) else None
      case _ => None
  }

  /** The calls ask, one by one, for the kinds of the open directives. */
  predicate Follows(calls: seq<Directive>, due: seq<Source>)
  {
    |calls| <= |due| && forall i :: 0 <= i < |calls| ==> calls[i] == due[i].directive
  }

  function Contexts(sources: seq<Source>): seq<ContextId>
  {
    seq(|sources|, i requires 0 <= i < |sources| => sources[i].context)
  }

  /** A row of calls is given directives throughout exactly when it follows the order of the sources, and
      then it is given each once, in that order: a call can neither skip a directive nor reuse one. */
  lemma {:induction false} ServedInOrder(sources: seq<Source>, consumed: set<ContextId>, calls: seq<Directive>)
    requires Distinct(sources) && forall i :: 0 <= i < |calls| ==> calls[i] == Pass || calls[i] == Collect
    ensures var due := Open(sources, consumed);
      Serve(sources, consumed, calls) == if Follows(calls, due) then Some(Contexts(due[..|calls|])) else None
    decreases |calls|
  {
    var due := Open(sources, consumed);
    if calls == [] {
      assert Contexts(due[..0]) == [];
    } else if due != [] {
      OpenFacts(sources, consumed);
      assert due[0] in sources && due[0].admitted;
      if due[0].directive == calls[0] {
        OpenAfterFirst(sources, consumed);
        ServedInOrder(sources, consumed + {due[0].context}, calls[1..]);
        FollowsTail(calls, due);
        if Follows(calls, due) { assert Contexts(due[..|calls|]) == [due[0].context] + Contexts(due[1..][..|calls| - 1]); }
      }
    }
  }

  lemma FollowsTail(calls: seq<Directive>, due: seq<Source>)
    requires calls != [] && due != [] && calls[0] == due[0].directive
    ensures Follows(calls, due) <==> Follows(calls[1..], due[1..])
  {
    if Follows(calls[1..], due[1..]) {
      forall i | 0 <= i < |calls|
        ensures calls[i] == due[i].directive
      {
        if i > 0 { assert calls[1..][i - 1] == due[1..][i - 1].directive; }
      }
    }
  }
}
