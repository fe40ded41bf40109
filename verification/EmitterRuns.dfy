/** Whole runs of the emitter: which event sequences it accepts, and what a complete node leaves. */
module EmitterRuns {
  import opened Options
  import opened Events
  import opened CharacterSets
  import opened ScalarEmitter
  import opened EmitterMachine
  import opened EmitterGrammar

  /** The event behind `evs[i]`, if there is one. */
  function Look(evs: seq<Event>, i: nat): Option<Event> {
    if i + 1 < |evs| then Some(evs[i + 1]) else None
  }

  /** `evs[p..k]` emitted one after the other, each with the one behind it in view. */
  ghost function EmitRange(m: M, evs: seq<Event>, p: nat, k: nat): Outcome
    requires p <= k <= |evs|
    decreases k - p
  {
    if p == k then Done(m)
    else
      match EmitEvent(m, evs[p], Look(evs, p))
      case Done(n) => EmitRange(n, evs, p + 1, k)
      case o => o
  }

  predicate AllAcceptable(evs: seq<Event>, p: nat, k: nat)
    requires p <= k <= |evs|
  {
    forall i :: p <= i < k ==> Acceptable(evs[i])
  }

  /** The emitter accepts a sequence of events exactly when it is a prefix of a well-formed stream
      whose anchors, flags and directives are usable. */
  lemma {:induction false} AcceptedIff(m: M, evs: seq<Event>, p: nat)
    requires Coherent(m) && p <= |evs|
    ensures match EmitRange(m, evs, p, |evs|)
      case Done(n) => Coherent(n) && Run(StackOf(m), evs, p) == Some(StackOf(n)) && AllAcceptable(evs, p, |evs|)
      case Refused(_) => !(Run(StackOf(m), evs, p).Some? && AllAcceptable(evs, p, |evs|))
      case Crash => false
    decreases |evs| - p
  {
    hide Coherent, EmitEvent, StackOf, Acceptable;
    if p < |evs| {
      var e := evs[p];
      StepCases(m, e, Look(evs, p));
      match EmitEvent(m, e, Look(evs, p)) {
        case Done(n) =>
          AcceptedIff(n, evs, p + 1);
          assert Run(StackOf(m), evs, p) == Run(StackOf(n), evs, p + 1);
        case _ =>
      }
    }
  }

  lemma {:induction false} RangeRuns(m: M, evs: seq<Event>, p: nat, k: nat)
    requires Coherent(m) && p <= k <= |evs| && EmitRange(m, evs, p, k).Done?
    ensures var n := EmitRange(m, evs, p, k).next;
      Coherent(n) && Run(StackOf(m), evs, p) == Run(StackOf(n), evs, k)
    decreases k - p
  {
    hide Coherent, EmitEvent, StackOf, Step;
    if p < k {
      StepCases(m, evs[p], Look(evs, p));
      RangeRuns(EmitEvent(m, evs[p], Look(evs, p)).next, evs, p + 1, k);
    }
  }

  lemma StepCases(m: M, e: Event, next: Option<Event>)
    requires Coherent(m)
    ensures match EmitEvent(m, e, next)
      case Done(n) => Coherent(n) && Step(StackOf(m), e) == Some(StackOf(n)) && Acceptable(e)
      case Refused(_) => Step(StackOf(m), e) == None || !Acceptable(e)
      case Crash => false
  {
    hide Coherent, EmitEvent, StackOf, Acceptable, Step;
    EveryEventIsAnswered(m, e, next);
  }

  lemma InitialIsCoherent(settings: Settings)
    ensures Coherent(Initial(settings)) && StackOf(Initial(settings)) == START
  {
    assert FramesOf([]) == [];
  }

  lemma EmptyStackIsEnd(m: M)
    requires Coherent(m) && StackOf(m) == []
    ensures m.state == EndState
  {
  }

  /** Every well-formed stream is emitted to its end. */
  lemma StreamIsEmitted(settings: Settings, evs: seq<Event>)
    requires IsStream(evs) && AllAcceptable(evs, 0, |evs|)
    ensures EmitRange(Initial(settings), evs, 0, |evs|).Done?
    ensures EmitRange(Initial(settings), evs, 0, |evs|).next.state == EndState
  {
    hide Coherent, EmitEvent, StackOf, Acceptable;
    InitialIsCoherent(settings);
    AcceptedIff(Initial(settings), evs, 0);
    EmptyStackIsEnd(EmitRange(Initial(settings), evs, 0, |evs|).next);
  }

  // ----- A complete node restores everything -----

  predicate InCollection(s: EmitterState) { IsFirst(s) || IsContinuation(s) }

  /** What the collection expects after `k` more nodes: items keep their place, keys and values alternate. */
  function Turn(f: seq<Frame>, k: nat): seq<Frame> {
    if k % 2 == 0 || f == [InSequence] then f
    else if f == [AtKey] then [AtValue]
    else [AtKey]
  }

  lemma ContinuesKeeps(s: EmitterState, c: EmitterState)
    requires InCollection(s) && Continues(s, c)
    ensures IsContinuation(c) && IsFlow(c) == IsFlow(s) && Frames(c) == Turn(Frames(s), 1)
  {
  }

  /** `r` is `m` after one complete node. */
  predicate Restored(m: M, o: Outcome) {
    && o.Done? && Coherent(o.next) && m.settings.bestIndent > 0
    && o.next.states == m.states && Continues(m.state, o.next.state)
    && ShapeOf(o.next) == Settle(m) && o.next.settings == m.settings
  }

  lemma {:induction false} RangeSplit(m: M, evs: seq<Event>, p: nat, q: nat, k: nat)
    requires p <= q <= k <= |evs|
    ensures EmitRange(m, evs, p, k)
      == match EmitRange(m, evs, p, q) case Done(n) => EmitRange(n, evs, q, k) case o => o
    decreases q - p
  {
    hide EmitEvent;
    if p < q {
      match EmitEvent(m, evs[p], Look(evs, p)) {
        case Done(n) => RangeSplit(n, evs, p + 1, q, k);
        case _ =>
      }
    }
  }

  /** One accepted event that begins, or is, a node. */
  lemma StartMoves(m: M, e: Event, next: Option<Event>)
    requires Coherent(m) && TakesNodes(m.state) && IsNodeStart(e) && Acceptable(e)
    ensures m.settings.bestIndent > 0
    ensures EmitEvent(m, e, next).Done? && Coherent(EmitEvent(m, e, next).next) && Moved(m, e, EmitEvent(m, e, next).next)
    ensures EmitEvent(m, e, next).next.settings == m.settings
    ensures StackOf(EmitEvent(m, e, next).next) == Open(e, AfterNode(StackOf(m)))
  {
    hide EmitEvent, Coherent, Moved, Acceptable;
    CoherentIndent(m);
    EveryEventIsAnswered(m, e, next);
    TakesNodeStack(m);
  }

  lemma TakesNodeStack(m: M)
    requires TakesNodes(m.state)
    ensures TakesNode(StackOf(m))
  {
  }

  lemma EndMoves(m: M, e: Event, next: Option<Event>)
    requires Coherent(m) && InCollection(m.state) && EndsHere(m.state, e)
    ensures m.settings.bestIndent > 0
    ensures EmitEvent(m, e, next).Done? && Coherent(EmitEvent(m, e, next).next) && Moved(m, e, EmitEvent(m, e, next).next)
    ensures EmitEvent(m, e, next).next.settings == m.settings
  {
    hide EmitEvent, Coherent, Moved, Step, AllAlpha;
    CoherentIndent(m);
    EmptyIsAlpha();
    EveryEventIsAnswered(m, e, next);
    EndStep(m, e);
  }

  lemma {:induction false} NodeRestores(m: M, evs: seq<Event>, p: nat, n: Node)
    requires Coherent(m) && TakesNodes(m.state) && WellFormed(n)
    requires p + |Flatten(n)| <= |evs| && evs[p..p + |Flatten(n)|] == Flatten(n)
    requires AllAcceptable(evs, p, p + |Flatten(n)|)
    ensures Restored(m, EmitRange(m, evs, p, p + |Flatten(n)|))
    ensures !n.Leaf? ==> !EmitRange(m, evs, p, p + |Flatten(n)|).next.openEnded
    decreases n, 1
  {
    hide EmitEvent, Coherent, Acceptable, AllAcceptable, Settle;
    var k := p + |Flatten(n)|;
    assert evs[p] == Flatten(n)[0];
    assert Acceptable(evs[p]) by { FirstAcceptable(evs, p, k); }
    match n {
      case Leaf(e) =>
        StartMoves(m, e, Look(evs, p));
        assert EmitRange(m, evs, p, k) == EmitEvent(m, e, Look(evs, p)) by {
          OneEvent(m, evs, p);
        }
      case Sequence(e, items) => CollectionRestores(m, evs, p, e, items, SequenceEnd);
      case Mapping(e, content) => CollectionRestores(m, evs, p, e, content, MappingEnd);
    }
  }

  lemma FirstAcceptable(evs: seq<Event>, p: nat, k: nat)
    requires p < k <= |evs| && AllAcceptable(evs, p, k)
    ensures Acceptable(evs[p])
  {
  }

  lemma OneEvent(m: M, evs: seq<Event>, p: nat)
    requires p < |evs|
    ensures EmitRange(m, evs, p, p + 1) == EmitEvent(m, evs[p], Look(evs, p))
  {
    hide EmitEvent;
    var o := EmitEvent(m, evs[p], Look(evs, p));
    if o.Done? {
      assert EmitRange(o.next, evs, p + 1, p + 1) == o;
    }
  }

  lemma {:induction false} CollectionRestores(m: M, evs: seq<Event>, p: nat, e: Event, ns: seq<Node>, end: Event)
    requires Coherent(m) && TakesNodes(m.state)
    requires (e.SequenceStart? && end.SequenceEnd?) || (e.MappingStart? && end.MappingEnd? && |ns| % 2 == 0)
    requires forall i :: 0 <= i < |ns| ==> WellFormed(ns[i])
    requires var k := p + |FlattenAll(ns)| + 2;
      k <= |evs| && evs[p..k] == [e] + FlattenAll(ns) + [end] && AllAcceptable(evs, p, k)
    ensures Restored(m, EmitRange(m, evs, p, p + |FlattenAll(ns)| + 2))
    ensures !EmitRange(m, evs, p, p + |FlattenAll(ns)| + 2).next.openEnded
    decreases ns, 3
  {
    hide EmitEvent, Coherent, Acceptable, Settle, Moved, StackOf, Frames, Restored, FlattenAll, EndsHere, AfterNode, Open;
    var q := p + 1 + |FlattenAll(ns)|;
    Ends(evs, p, e, FlattenAll(ns), end);
    StartMoves(m, e, Look(evs, p));
    var m1 := EmitEvent(m, e, Look(evs, p)).next;
    TakesNodeStack(m);
    Opened(m, e, m1);
    NodesRestore(m1, evs, p + 1, ns);
    var m2 := EmitRange(m1, evs, p + 1, q).next;
    CanEnd(m1.state, m2.state, |ns|, e, end);
    EndMoves(m2, end, Look(evs, q));
    var r := EmitEvent(m2, end, Look(evs, q)).next;
    RangeSplit(m, evs, p, q, q + 1);
    OneEvent(m2, evs, q);
    ClosedRestores(m, m1, m2, e, end, r);
  }

  lemma CanEnd(s1: EmitterState, s2: EmitterState, k: nat, e: Event, end: Event)
    requires (e.SequenceStart? && end.SequenceEnd?) || (e.MappingStart? && end.MappingEnd? && k % 2 == 0)
    requires Frames(s1) == (if e.SequenceStart? then [InSequence] else [AtKey]) && Frames(s2) == Turn(Frames(s1), k)
    ensures EndsHere(s2, end)
  {
  }

  lemma Opened(m: M, e: Event, m1: M)
    requires m.settings.bestIndent > 0 && (e.SequenceStart? || e.MappingStart?) && Moved(m, e, m1) && TakesNodes(m.state)
    requires TakesNode(StackOf(m)) && StackOf(m1) == Open(e, AfterNode(StackOf(m)))
    ensures InCollection(m1.state) && Frames(m1.state) == if e.SequenceStart? then [InSequence] else [AtKey]
  {
    assert Frames(m1.state)[0] == StackOf(m1)[0];
  }

  lemma {:induction false} NodesRestore(m: M, evs: seq<Event>, p: nat, ns: seq<Node>)
    requires Coherent(m) && InCollection(m.state)
    requires forall i :: 0 <= i < |ns| ==> WellFormed(ns[i])
    requires var k := p + |FlattenAll(ns)|;
      k <= |evs| && evs[p..k] == FlattenAll(ns) && AllAcceptable(evs, p, k)
    ensures Filled(m, |ns|, EmitRange(m, evs, p, p + |FlattenAll(ns)|))
    decreases ns, 2
  {
    hide EmitEvent, Coherent, Acceptable, Settle, ShapeOf;
    if ns == [] {
      CoherentIndent(m);
    } else {
      var q, k := p + |Flatten(ns[0])|, p + |FlattenAll(ns)|;
      Halves(evs, p, Flatten(ns[0]), FlattenAll(ns[1..]));
      NodeRestores(m, evs, p, ns[0]);
      var r := EmitRange(m, evs, p, q).next;
      ContinuesKeeps(m.state, r.state);
      SettledAlready(r);
      NodesRestore(r, evs, q, ns[1..]);
      RangeSplit(m, evs, p, q, k);
      TurnAgain(m.state, |ns| - 1);
    }
  }

  /** `o` is `m` after `k` nodes of the open collection. */
  predicate Filled(m: M, k: nat, o: Outcome) {
    && o.Done? && Coherent(o.next) && m.settings.bestIndent > 0 && o.next.settings == m.settings
    && o.next.states == m.states && InCollection(o.next.state) && IsFlow(o.next.state) == IsFlow(m.state)
    && Frames(o.next.state) == Turn(Frames(m.state), k) && Settle(o.next) == Settle(m)
  }

  lemma SettledAlready(m: M)
    requires IsContinuation(m.state) && m.settings.bestIndent > 0
    ensures Settle(m) == ShapeOf(m)
  {
  }

  lemma TurnAgain(s: EmitterState, k: nat)
    requires InCollection(s)
    ensures Turn(Turn(Frames(s), 1), k) == Turn(Frames(s), k + 1)
  {
  }

  lemma ClosedRestores(m: M, m1: M, m2: M, e: Event, end: Event, r: M)
    requires m.settings.bestIndent > 0 && m1.settings == m2.settings == m.settings == r.settings
    requires (e.SequenceStart? && end.SequenceEnd?) || (e.MappingStart? && end.MappingEnd?)
    requires Moved(m, e, m1) && m2.states == m1.states && Settle(m2) == Settle(m1) && IsFlow(m2.state) == IsFlow(m1.state)
    requires Moved(m2, end, r) && Coherent(r)
    ensures Restored(m, Done(r)) && !r.openEnded
  {
    hide Coherent, Deeper, Continues;
    assert Init(m1.indents + [m1.indent]) == m1.indents;
  }

  // ----- What is asked of an event -----

  predicate IsWord(s: string) {
    forall i :: 0 <= i < |s| ==> 'a' <= s[i] <= 'z' || 'A' <= s[i] <= 'Z' || '0' <= s[i] <= '9' || Among(s[i], "_-")
  }

  /** The primary handle, the secondary one, or a named one; the prefix is not empty. */
  ghost predicate IsDirective(d: (string, string)) { d.1 != "" && (d.0 == "!" || exists name :: IsWord(name) && d.0 == "!" + name + "!") }

  /** The events the emitter takes where the grammar allows them: anchors are words, and the name of an alias is not
      empty; a scalar has a tag, or may go without; the tag directives are sound, and none is given twice. */
  lemma AcceptableExactlyWhen(e: Event)
    ensures Acceptable(e) <==>
      match e
      case Alias(name) => name != "" && IsWord(name)
      case Scalar(anchor, tag, _, implicit, quotedImplicit, _) => IsWord(anchor) && (implicit || quotedImplicit || tag != "")
      case SequenceStart(anchor, _, _, _) => IsWord(anchor)
      case MappingStart(anchor, _, _, _) => IsWord(anchor)
      case DocumentStart(_, _, ds) => (forall i :: 0 <= i < |ds| ==> IsDirective(ds[i])) && forall i, j :: 0 <= i < j < |ds| ==> ds[i].0 != ds[j].0
      case _ => true
  {
    hide IsWord, ValidDirective, AllAlpha, IsDirective;
    EmptyIsAlpha();
    WordsAgree(EmitterMachine.AnchorOf(e));
    if e.DocumentStart? {
      forall i | 0 <= i < |e.directives| ensures ValidDirective(e.directives[i]) <==> IsDirective(e.directives[i]) { DirectivesAgree(e.directives[i]); }
    }
  }

  lemma WordsAgree(s: string)
    ensures AllAlpha(s) <==> IsWord(s)
  {
    assert "_-"[0] == '_' && "_-"[1] == '-';
  }

  lemma DirectivesAgree(d: (string, string))
    ensures ValidDirective(d) <==> IsDirective(d)
  {
    hide IsWord;
    var handle := d.0;
    if ValidDirective(d) && |handle| > 1 {
      var name := handle[1..|handle| - 1];
      assert forall i :: 0 <= i < |name| ==> name[i] == handle[i + 1];
      WordsAgree(name);
      assert handle == "!" + name + "!";
    } else if ValidDirective(d) {
      assert handle == "!";
    }
    if exists name :: IsWord(name) && handle == "!" + name + "!" {
      var name :| IsWord(name) && handle == "!" + name + "!";
      WordsAgree(name);
      assert forall i :: 1 <= i < |handle| - 1 ==> handle[i] == name[i - 1];
    }
  }
}
