/** The emitter object (emitterc.go): an event queue in front of the state machine, and methods that
    assign the fields in place. Queueing delays events but changes nothing: what has been printed is
    what the state machine prints with every event's successor in view, and at the end of a
    well-formed stream the queue is empty. */
module StreamEmitter {
  import opened Chars
  import opened Options
  import opened Events
  import opened ScalarEmitter
  import opened EmitterMachine
  import opened EmitterGrammar
  import opened EmitterRuns
  import TagUri

  // ----- The queue -----

  function Accumulate(e: Event): nat {
    if e.DocumentStart? then 1 else if e.SequenceStart? then 2 else if e.MappingStart? then 3 else 0
  }

  /** `need_more_events`: the event at `p` waits for a few more, unless it is complete already. */
  ghost predicate NeedsMore(evs: seq<Event>, p: nat)
    requires p <= |evs|
  {
    p == |evs| || (|evs| - p <= Accumulate(evs[p]) && forall k :: p < k <= |evs| ==> Level(evs, p, k) != 0)
  }

  function Weight(f: Frame): nat { if f.AtStart? || f.OwesNode? then 0 else 1 }

  function Depth(stack: seq<Frame>): nat {
    if stack == [] then 0 else Weight(stack[0]) + Depth(stack[1..])
  }

  lemma StepDepth(stack: seq<Frame>, e: Event)
    requires Step(stack, e).Some?
    ensures Depth(Step(stack, e).value) == Depth(stack) + Rise(e)
  {
    if TakesNode(stack) && IsNodeStart(e) {
      DepthAfterNode(stack);
      DepthOnTop(InSequence, AfterNode(stack));
      DepthOnTop(AtKey, AfterNode(stack));
    } else if stack[0].AtStart? {
      DepthOnTop(InStream, stack[1..]);
    } else if e.DocumentStart? {
      DepthOnTop(OwesDocumentEnd, stack);
      DepthOnTop(OwesNode, [OwesDocumentEnd] + stack);
      assert [OwesNode] + ([OwesDocumentEnd] + stack) == [OwesNode, OwesDocumentEnd] + stack;
    }
  }

  lemma DepthOnTop(f: Frame, stack: seq<Frame>)
    ensures Depth([f] + stack) == Weight(f) + Depth(stack)
  {
    assert ([f] + stack)[1..] == stack;
  }

  lemma DepthAfterNode(stack: seq<Frame>)
    requires TakesNode(stack)
    ensures Depth(AfterNode(stack)) == Depth(stack)
  {
    DepthOnTop(AtValue, stack[1..]);
    DepthOnTop(AtKey, stack[1..]);
  }

  lemma {:induction false} RunDepth(stack: seq<Frame>, evs: seq<Event>, p: nat)
    requires p <= |evs| && Run(stack, evs, p) == Some([])
    ensures Depth(stack) + Level(evs, p, |evs|) == 0
    decreases |evs| - p
  {
    if p < |evs| {
      hide Step, Depth;
      StepDepth(stack, evs[p]);
      RunDepth(Step(stack, evs[p]).value, evs, p + 1);
      LevelSplit(evs, p, p + 1, |evs|);
      OneLevel(evs, p);
    } else {
      assert Depth([]) == 0;
    }
  }

  /** The level moves by at most one, so it meets 0 on its way down. */
  lemma {:induction false} MeetsZero(evs: seq<Event>, p: nat, lo: nat, hi: nat) returns (k: nat)
    requires p <= lo <= hi <= |evs| && Level(evs, p, lo) > 0 && Level(evs, p, hi) <= 0
    ensures lo < k <= hi && Level(evs, p, k) == 0
    decreases hi - lo
  {
    assert Level(evs, p, lo + 1) == Level(evs, p, lo) + Rise(evs[lo]);
    if Level(evs, p, lo + 1) == 0 {
      k := lo + 1;
    } else {
      k := MeetsZero(evs, p, lo + 1, hi);
    }
  }

  /** Nothing can still be waiting when the stream is complete. */
  lemma NothingWaits(stack: seq<Frame>, evs: seq<Event>, p: nat)
    requires p <= |evs| && Run(stack, evs, p) == Some([]) && NeedsMore(evs, p)
    ensures p == |evs|
  {
    if p < |evs| {
      RunDepth(stack, evs, p);
      OneLevel(evs, p);
      var k := MeetsZero(evs, p, p + 1, |evs|);
    }
  }

  predicate OpensCollection(e: Event) { e.SequenceStart? || e.MappingStart? }

  /** An event that starts a collection is never emitted before its successor is queued. */
  lemma SuccessorQueued(evs: seq<Event>, p: nat)
    requires p < |evs| && !NeedsMore(evs, p) && OpensCollection(evs[p])
    ensures p + 1 < |evs|
  {
    OneLevel(evs, p);
  }

  // ----- Only the start of a collection looks at the next event -----

  lemma NodeNextUnused(m: M, e: Event, d: Data, a: Option<Event>, b: Option<Event>, root: bool, simpleKey: bool)
    requires !OpensCollection(e)
    ensures EmitNode(m, e, d, a, root, simpleKey) == EmitNode(m, e, d, b, root, simpleKey)
    ensures IsSimpleKey(m, e, d, a) == IsSimpleKey(m, e, d, b)
  {
    hide EmitScalar, ProcessAnchor, ProcessTag, PopState;
  }

  lemma FlowNextUnused(m: M, e: Event, d: Data, a: Option<Event>, b: Option<Event>, first: bool)
    requires !OpensCollection(e)
    ensures EmitFlowSequence(m, e, d, a, first) == EmitFlowSequence(m, e, d, b, first)
    ensures EmitFlowMappingKey(m, e, d, a, first) == EmitFlowMappingKey(m, e, d, b, first)
    ensures EmitFlowMappingValue(m, e, d, a, first) == EmitFlowMappingValue(m, e, d, b, first)
  {
    hide EmitNode, IsSimpleKey, BeforeEntry, OpenFlow, CloseFlow, Indicator, Indent;
    forall n: M, simple: bool
      ensures EmitNode(n, e, d, a, false, simple) == EmitNode(n, e, d, b, false, simple)
      ensures IsSimpleKey(n, e, d, a) == IsSimpleKey(n, e, d, b)
    {
      NodeNextUnused(n, e, d, a, b, false, simple);
    }
    var n := if first && OpenFlow(m, "{").Done? then OpenFlow(m, "{").next else m;
    NodeNextUnused(BeforeEntry(n, first), e, d, a, b, false, true);
  }

  lemma BlockNextUnused(m: M, e: Event, d: Data, a: Option<Event>, b: Option<Event>, first: bool)
    requires !OpensCollection(e)
    ensures EmitBlockSequence(m, e, d, a, first) == EmitBlockSequence(m, e, d, b, first)
    ensures EmitBlockMappingKey(m, e, d, a, first) == EmitBlockMappingKey(m, e, d, b, first)
    ensures EmitBlockMappingValue(m, e, d, a, first) == EmitBlockMappingValue(m, e, d, b, first)
  {
    hide EmitNode, IsSimpleKey, Increase, CloseBlock, Indicator, Indent;
    forall n: M, simple: bool
      ensures EmitNode(n, e, d, a, false, simple) == EmitNode(n, e, d, b, false, simple)
      ensures IsSimpleKey(n, e, d, a) == IsSimpleKey(n, e, d, b)
    {
      NodeNextUnused(n, e, d, a, b, false, simple);
    }
    var n := if first && Increase(m, false).Done? then Increase(m, false).next else m;
    NodeNextUnused(Indent(n), e, d, a, b, false, true);
  }

  lemma NextUnused(m: M, e: Event, a: Option<Event>, b: Option<Event>)
    requires !OpensCollection(e)
    ensures EmitEvent(m, e, a) == EmitEvent(m, e, b)
  {
    hide EmitStreamStart, EmitDocumentStart, EmitNode, EmitDocumentEnd, EmitFlowSequence, EmitFlowMappingKey,
      EmitFlowMappingValue, EmitBlockSequence, EmitBlockMappingKey, EmitBlockMappingValue;
    var o := AnalyzeEvent(m, e);
    if o.Some? {
      FlowNextUnused(m, e, o.value, a, b, true);
      FlowNextUnused(m, e, o.value, a, b, false);
      BlockNextUnused(m, e, o.value, a, b, true);
      BlockNextUnused(m, e, o.value, a, b, false);
      NodeNextUnused(PushState(m, DocumentEndState), e, o.value, a, b, true, false);
    }
  }

  /** Appending an event changes nothing that has been emitted. */
  lemma {:induction false} RangeExtends(m: M, evs: seq<Event>, e: Event, p: nat, k: nat)
    requires p <= k <= |evs| && (0 < k == |evs| ==> !OpensCollection(evs[k - 1]))
    ensures EmitRange(m, evs + [e], p, k) == EmitRange(m, evs, p, k)
    decreases k - p
  {
    hide EmitEvent;
    if p < k {
      assert (evs + [e])[p] == evs[p];
      if p + 1 == |evs| {
        NextUnused(m, evs[p], Look(evs, p), Look(evs + [e], p));
      } else {
        assert (evs + [e])[p + 1] == evs[p + 1];
      }
      var o := EmitEvent(m, evs[p], Look(evs, p));
      if o.Done? { RangeExtends(o.next, evs, e, p + 1, k); }
    }
  }

  // ----- The emitter -----

  /** The step's outcome `o` is the returned problem `r` with the fields at `after`. */
  ghost predicate Matches(o: Outcome, r: Option<Problem>, after: M) {
    match o
    case Done(n) => r == None && after == n
    case Refused(problem) => r == Some(problem)
    case Crash => false
  }

  lemma AnalysisIsUnique(c: ScalarData, v: string, unicode: bool)
    requires Describes(c, v, unicode)
    ensures c == AnalysisOf(v, unicode)
  {
  }

  lemma FoldedNext(cfg: Config, v: string, i: nat, s: Sink, breaks: bool, leading: bool)
    requires i < |v|
    ensures IsBreak(v[i]) ==>
      var s1 := if !breaks && !leading && v[i] == '\n' && !IsBlankz(At(v, SkipBreaks(v, 0))) then PutBreak(cfg, s) else s;
      FoldedText(cfg, v, i, s, breaks, leading) == FoldedText(cfg, v, i + 1, WriteBreak(cfg, s1, v[i]), true, leading)
    ensures !IsBreak(v[i]) ==>
      var s1 := if breaks then WriteIndent(cfg, s) else s;
      var fold := !breaks && v[i] == ' ' && At(v, i + 1) != ' ' && s1.column > cfg.bestWidth;
      var s2 := if fold then WriteIndent(cfg, s1) else Put(s1, [v[i]]);
      FoldedText(cfg, v, i, s, breaks, leading)
      == FoldedText(cfg, v, i + 1, s2.(indention := false), false, if breaks then IsBlank(v[i]) else leading)
  {
    hide WriteIndent, SkipBreaks;
  }

  lemma FoldedEnds(cfg: Config, v: string, s: Sink, breaks: bool, leading: bool)
    ensures FoldedText(cfg, v, |v|, s, breaks, leading) == s
  {
  }

  class Emitter {
    const writer: ScalarEmitter.Emitter  // the output half of the struct
    var state: EmitterState
    var states: seq<EmitterState>
    var indents: seq<int>
    var flowLevel: nat
    var directives: seq<(string, string)>
    var bestIndent: int
    var canonical: bool
    var events: seq<Event>
    var head: nat
    ghost const initial: Settings

    ghost function View(): M
      reads this, writer
    {
      M(writer.State(), writer.openEnded, state, states, indents, writer.indent, flowLevel, directives,
        Settings(bestIndent, writer.bestWidth, canonical, writer.unicode, writer.lineBreak))
    }

    /** What has been emitted is a run over the events so far, each with its successor in view. */
    ghost predicate Valid()
      reads this, writer
    {
      && head <= |events|
      && EmitRange(Initial(initial), events, 0, head) == Done(View())
      && (0 < head == |events| ==> !OpensCollection(events[head - 1]))
      && NeedsMore(events, head)
    }

    constructor (settings: Settings)
      ensures Valid() && fresh(writer) && events == [] && initial == settings && View() == Initial(settings)
    {
      writer := new ScalarEmitter.Emitter(Config(-1, settings.bestWidth, settings.lineBreak, settings.unicode));
      state, states, indents, flowLevel, directives := StreamStartState, [], [], 0, [];
      bestIndent, canonical, events, head, initial := settings.bestIndent, settings.canonical, [], 0, settings;
    }

    // ----- Text -----

    method PutIndicator(t: string, needWhitespace: bool, isWhitespace: bool, isIndention: bool)
      modifies writer
      ensures View() == Indicator(old(View()), t, needWhitespace, isWhitespace, isIndention)
      ensures writer.rootContext == old(writer.rootContext)
      ensures writer.scalarData == old(writer.scalarData) && writer.unicode == old(writer.unicode)
    {
      writer.EmitIndicator(t, needWhitespace, isWhitespace, isIndention);
    }

    method PutIndent()
      modifies writer
      ensures View() == Indent(old(View()))
      ensures writer.scalarData == old(writer.scalarData) && writer.unicode == old(writer.unicode)
    {
      writer.EmitIndent();
    }

    method PutWord(t: string, needWhitespace: bool)
      modifies writer
      ensures View() == old(View()).(sink := Word(old(View()).sink, t, needWhitespace))
      ensures writer.rootContext == old(writer.rootContext)
    {
      if needWhitespace && !writer.whitespace { writer.PutText(" "); }
      writer.PutText(t);
      writer.whitespace, writer.indention := false, false;
    }

    method PutTagContent(v: string, needWhitespace: bool)
      modifies writer
      ensures View() == old(View()).(sink := Word(old(View()).sink, TagUri.TagText(v), needWhitespace))
      ensures writer.rootContext == old(writer.rootContext)
    {
      var text := TagUri.WriteTagContent(v);
      PutWord(text, needWhitespace);
    }

    method PutAnchor(d: Data)
      modifies writer
      ensures View() == ProcessAnchor(old(View()), d) && writer.rootContext == old(writer.rootContext)
    {
      if d.anchor == "" { return; }
      PutIndicator(if d.alias then "*" else "&", true, false, false);
      PutWord(d.anchor, false);
    }

    method PutTag(d: Data)
      modifies writer
      ensures View() == ProcessTag(old(View()), d) && writer.rootContext == old(writer.rootContext)
    {
      if d.handle == "" && d.suffix == "" { return; }
      if d.handle != "" {
        PutWord(d.handle, true);
        if d.suffix != "" { PutTagContent(d.suffix, false); }
      } else {
        PutIndicator("!<", true, false, false);
        PutTagContent(d.suffix, false);
        PutIndicator(">", false, false, false);
      }
    }

    // ----- Stacks -----

    method IncreaseIndent(flow: bool)
      requires Increase(View(), flow).Done?
      modifies this`indents, writer`indent
      ensures View() == Increase(old(View()), flow).next
    {
      indents := indents + [writer.indent];
      if writer.indent < 0 {
        writer.indent := if flow then bestIndent else 0;
      } else if states[|states| - 1].BlockSequenceItem? {
        writer.indent := writer.indent + 2;
      } else {
        writer.indent := bestIndent * ((writer.indent + bestIndent) / bestIndent);
      }
    }

    method DropIndent()
      requires indents != []
      modifies this`indents, writer`indent
      ensures PopIndent(old(View())) == Done(View())
    {
      writer.indent := indents[|indents| - 1];
      indents := indents[..|indents| - 1];
    }

    method DropState()
      requires states != []
      modifies this`state, this`states
      ensures PopState(old(View())) == Done(View())
    {
      state := states[|states| - 1];
      states := states[..|states| - 1];
    }

    method KeepState(s: EmitterState)
      modifies this`states
      ensures View() == PushState(old(View()), s)
    {
      states := states + [s];
    }

    // ----- Scalars -----

    method PutBlockHints(v: string)
      requires v != ""
      modifies writer
      ensures View() == BlockHints(old(View()), v)
    {
      if v[0] == ' ' || IsBreak(v[0]) {
        PutIndicator(if 0 <= bestIndent <= 9 then ['0' + bestIndent as char] else "", false, false, false);
      }
      writer.openEnded := false;
      var chomp := "";
      if !IsBreak(v[|v| - 1]) {
        chomp := "-";
      } else if |v| == 1 || IsBreak(v[|v| - 2]) {
        chomp := "+";
        writer.openEnded := true;
      }
      if chomp != "" { PutIndicator(chomp, false, false, false); }
    }

    method PutLiteral(v: string)
      requires v != ""
      modifies writer
      ensures View() == WriteBlock(old(View()), v, false)
    {
      hide BlockHints, WriteIndicator, WriteIndent;
      PutIndicator("|", true, false, false);
      PutBlockHints(v);
      writer.whitespace := true;
      ghost var m1 := View();
      var breaks, i := true, 0;
      while i < |v|
        invariant 0 <= i <= |v|
        invariant View() == m1.(sink := View().sink)
        invariant LiteralText(Cfg(m1), v, i, View().sink, breaks) == LiteralText(Cfg(m1), v, 0, m1.sink, true)
      {
        if IsBreak(v[i]) {
          writer.CopyBreak(v[i]);
          breaks := true;
        } else {
          if breaks { writer.EmitIndent(); }
          writer.PutText([v[i]]);
          writer.indention := false;
          breaks := false;
        }
        i := i + 1;
      }
    }

    /** The look-ahead, which starts at the beginning of the value. */
    method FirstNotBreak(v: string) returns (k: nat)
      ensures k == SkipBreaks(v, 0)
    {
      k := 0;
      while k < |v| && IsBreak(v[k])
        invariant 0 <= k <= |v|
        invariant SkipBreaks(v, k) == SkipBreaks(v, 0)
      {
        k := k + 1;
      }
    }

    method PutFolded(v: string)
      requires v != ""
      modifies writer
      ensures View() == WriteBlock(old(View()), v, true)
    {
      hide BlockHints, WriteIndicator, WriteIndent, SkipBreaks, FoldedText;
      PutIndicator(">", true, false, false);
      PutBlockHints(v);
      writer.whitespace := true;
      ghost var m1 := View();
      var breaks, leading, i := true, true, 0;
      while i < |v|
        invariant 0 <= i <= |v|
        invariant View() == m1.(sink := View().sink)
        invariant FoldedText(Cfg(m1), v, i, View().sink, breaks, leading) == FoldedText(Cfg(m1), v, 0, m1.sink, true, true)
      {
        FoldedNext(Cfg(m1), v, i, View().sink, breaks, leading);
        if IsBreak(v[i]) {
          if !breaks && !leading && v[i] == '\n' {
            var k := FirstNotBreak(v);
            if !IsBlankz(At(v, k)) { writer.EmitBreak(); }
          }
          writer.CopyBreak(v[i]);
          breaks := true;
        } else {
          if breaks {
            writer.EmitIndent();
            leading := IsBlank(v[i]);
          }
          if !breaks && v[i] == ' ' && At(v, i + 1) != ' ' && writer.column > writer.bestWidth {
            writer.EmitIndent();
          } else {
            writer.PutText([v[i]]);
          }
          writer.indention := false;
          breaks := false;
        }
        i := i + 1;
      }
      FoldedEnds(Cfg(m1), v, View().sink, breaks, leading);
    }

    method PutScalar(v: string, style: Style, root: bool, simpleKey: bool)
      requires root == writer.rootContext
      requires !style.Any? && (style.Literal? || style.Folded? ==> v != "")
      modifies writer
      ensures View() == ProcessScalar(old(View()), v, style, root, simpleKey)
    {
      match style {
        case Plain => writer.WritePlainScalar(v, !simpleKey);
        case SingleQuoted => writer.WriteSingleQuotedScalar(v, !simpleKey);
        case DoubleQuoted => writer.WriteDoubleQuotedScalar(v, !simpleKey);
        case Literal => PutLiteral(v);
        case Folded => PutFolded(v);
      }
    }

    // ----- Analysis -----

    method AnalyzeTag(tag: string) returns (handle: string, suffix: string)
      ensures (handle, suffix) == SplitTag(directives, tag)
    {
      var i := 0;
      while i < |directives|
        invariant 0 <= i <= |directives|
        invariant SplitTag(directives[i..], tag) == SplitTag(directives, tag)
      {
        if directives[i].1 <= tag { return directives[i].0, tag[|directives[i].1|..]; }
        assert directives[i..][1..] == directives[i + 1..];
        i := i + 1;
      }
      return "", tag;
    }

    /** `analyze_event`. */
    method Analyze(e: Event) returns (d: Option<Data>)
      modifies writer`scalarData
      ensures d == AnalyzeEvent(View(), e) && View() == old(View())
      ensures e.Scalar? && d.Some? ==> writer.scalarData == AnalysisOf(e.value, writer.unicode)
    {
      var anchor := EmitterMachine.AnchorOf(e);
      if e.Alias? && anchor == "" { return None; }
      var i := 0;
      while i < |anchor|
        invariant 0 <= i <= |anchor|
        invariant forall k :: 0 <= k < i ==> IsAlpha(anchor[k])
      {
        if !IsAlpha(anchor[i]) { return None; }
        i := i + 1;
      }
      var handle, suffix := "", "";
      var tag := EmitterMachine.TagOf(e);
      if tag != "" && (canonical || (match e case Scalar(_, _, _, implicit, quotedImplicit, _) => !implicit && !quotedImplicit
                                     case SequenceStart(_, _, implicit, _) => !implicit
                                     case MappingStart(_, _, implicit, _) => !implicit
                                     case _ => false)) {
        handle, suffix := AnalyzeTag(tag);
      }
      if e.Scalar? {
        writer.AnalyzeScalar(e.value);
        AnalysisIsUnique(writer.scalarData, e.value, writer.unicode);
      }
      d := Some(Data(anchor, e.Alias?, handle, suffix));
    }

    method CheckSimpleKey(e: Event, d: Data, next: Option<Event>) returns (simple: bool)
      requires e.Scalar? ==> writer.scalarData == AnalysisOf(e.value, writer.unicode)
      ensures simple == IsSimpleKey(View(), e, d, next)
    {
      var length := 0;
      match e {
        case Alias(_) =>
          length := length + Octets(d.anchor);
        case Scalar(_, _, value, _, _, _) =>
          if writer.scalarData.multiline { return false; }
          length := length + Octets(d.anchor) + Octets(d.handle) + Octets(d.suffix) + Octets(value);
        case SequenceStart(_, _, _, _) =>
          if !IsEmptySequence(e, next) { return false; }
          length := length + Octets(d.anchor) + Octets(d.handle) + Octets(d.suffix);
        case MappingStart(_, _, _, _) =>
          if !IsEmptyMapping(e, next) { return false; }
          length := length + Octets(d.anchor) + Octets(d.handle) + Octets(d.suffix);
        case _ =>
          return false;
      }
      simple := length <= 128;
    }

    // ----- Nodes -----

    ghost predicate Analyzed(e: Event, d: Data)
      reads this, writer
    {
      e.Scalar? ==> writer.scalarData == AnalysisOf(e.value, writer.unicode)
    }

    method EmitScalar(e: Event, d: Data, root: bool, simpleKey: bool) returns (r: Option<Problem>)
      requires e.Scalar? && Analyzed(e, d) && root == writer.rootContext && !EmitterMachine.EmitScalar(View(), e, d, root, simpleKey).Crash?
      modifies this, writer
      ensures Matches(EmitterMachine.EmitScalar(old(View()), e, d, root, simpleKey), r, View())
      ensures events == old(events) && head == old(head)
    {
      hide EmitterMachine.ProcessScalar, EmitterMachine.ProcessTag, EmitterMachine.ProcessAnchor, SelectStyle;
      var noTag := d.handle == "" && d.suffix == "";
      if noTag && !e.implicit && !e.quotedImplicit { return Some(Problem.NoTag); }
      StyleIsWritable(View(), e, d, simpleKey);
      var style := SelectStyle(Context(flowLevel, simpleKey, canonical, noTag, e.implicit, e.quotedImplicit),
                               StyleOf(e.style), writer.scalarData, e.value);
      assert style == ChosenStyle(View(), e, d, simpleKey);
      var d1 := d;
      if noTag && !e.quotedImplicit && !style.Plain? { d1 := d.(handle := "!"); }
      PutAnchor(d);
      PutTag(d1);
      IncreaseIndent(true);
      PutScalar(e.value, style, root, simpleKey);
      DropIndent();
      DropState();
      r := None;
    }

    method EmitNode(e: Event, d: Data, next: Option<Event>, root: bool, simpleKey: bool) returns (r: Option<Problem>)
      requires Analyzed(e, d) && !EmitterMachine.EmitNode(View(), e, d, next, root, simpleKey).Crash?
      modifies this, writer
      ensures Matches(EmitterMachine.EmitNode(old(View()), e, d, next, root, simpleKey), r, View())
      ensures events == old(events) && head == old(head)
    {
      hide EmitterMachine.EmitScalar, EmitterMachine.ProcessTag, EmitterMachine.ProcessAnchor;
      r := None;
      writer.rootContext := root;
      match e {
        case Alias(_) =>
          PutAnchor(d);
          DropState();
        case Scalar(_, _, _, _, _, _) =>
          r := EmitScalar(e, d, root, simpleKey);
        case SequenceStart(_, _, _, collection) =>
          PutAnchor(d);
          PutTag(d);
          state := if flowLevel > 0 || canonical || collection.Flow? || IsEmptySequence(e, next)
            then FlowSequenceFirstItem else BlockSequenceFirstItem;
        case MappingStart(_, _, _, collection) =>
          PutAnchor(d);
          PutTag(d);
          state := if flowLevel > 0 || canonical || collection.Flow? || IsEmptyMapping(e, next)
            then FlowMappingFirstKey else BlockMappingFirstKey;
        case _ =>
          r := Some(ExpectedNode);
      }
    }

    // ----- Flow collections -----

    method OpenFlow(bracket: string)
      requires EmitterMachine.OpenFlow(View(), bracket).Done?
      modifies this`indents, this`flowLevel, writer
      ensures View() == EmitterMachine.OpenFlow(old(View()), bracket).next
      ensures writer.scalarData == old(writer.scalarData) && writer.unicode == old(writer.unicode)
    {
      PutIndicator(bracket, true, true, false);
      IncreaseIndent(true);
      flowLevel := flowLevel + 1;
    }

    method CloseFlow(bracket: string, indentWhen: bool)
      requires EmitterMachine.CloseFlow(View(), bracket, indentWhen).Done?
      modifies this`indents, this`flowLevel, this`state, this`states, writer
      ensures EmitterMachine.CloseFlow(old(View()), bracket, indentWhen) == Done(View())
    {
      flowLevel := flowLevel - 1;
      DropIndent();
      if indentWhen { PutIndent(); }
      PutIndicator(bracket, false, false, false);
      DropState();
    }

    method PutBeforeEntry(first: bool)
      modifies writer
      ensures View() == BeforeEntry(old(View()), first)
      ensures writer.scalarData == old(writer.scalarData) && writer.unicode == old(writer.unicode)
    {
      if !first { PutIndicator(",", false, false, false); }
      if writer.column == 0 { PutIndent(); }
      if canonical || writer.column > writer.bestWidth { PutIndent(); }
    }

    method EmitFlowSequenceItem(e: Event, d: Data, next: Option<Event>, first: bool) returns (r: Option<Problem>)
      requires Analyzed(e, d) && !EmitFlowSequence(View(), e, d, next, first).Crash?
      modifies this, writer
      ensures Matches(EmitFlowSequence(old(View()), e, d, next, first), r, View())
      ensures events == old(events) && head == old(head)
    {
      hide EmitterMachine.EmitNode, EmitterMachine.OpenFlow, EmitterMachine.CloseFlow, BeforeEntry;
      if first { OpenFlow("["); }
      if e.SequenceEnd? {
        if canonical && !first { PutIndicator(",", false, false, false); }
        CloseFlow("]", writer.column == 0 || (canonical && !first));
        return None;
      }
      PutBeforeEntry(first);
      KeepState(FlowSequenceItem);
      r := EmitNode(e, d, next, false, false);
    }

    method EmitFlowMappingEntry(e: Event, d: Data, next: Option<Event>, first: bool) returns (r: Option<Problem>)
      requires Analyzed(e, d) && !EmitFlowMappingKey(View(), e, d, next, first).Crash?
      modifies this, writer
      ensures Matches(EmitFlowMappingKey(old(View()), e, d, next, first), r, View())
      ensures events == old(events) && head == old(head)
    {
      hide FlowMappingEntry, EmitterMachine.OpenFlow;
      if first { OpenFlow("{"); }
      r := EmitFlowMappingPart(e, d, next, first);
    }

    /** The part of the same function behind the opening bracket. */
    method EmitFlowMappingPart(e: Event, d: Data, next: Option<Event>, first: bool) returns (r: Option<Problem>)
      requires Analyzed(e, d) && !FlowMappingEntry(View(), e, d, next, first).Crash?
      modifies this, writer
      ensures Matches(FlowMappingEntry(old(View()), e, d, next, first), r, View())
      ensures events == old(events) && head == old(head)
    {
      hide EmitterMachine.EmitNode, EmitterMachine.CloseFlow, BeforeEntry, IsSimpleKey, WriteIndicator, ScalarEmitter.Emitter.State;
      if e.MappingEnd? {
        if canonical && !first { PutIndicator(",", false, false, false); }
        CloseFlow("}", canonical && !first);
        return None;
      }
      PutBeforeEntry(first);
      var simple := CheckSimpleKey(e, d, next);
      if !canonical && simple {
        KeepState(FlowMappingSimpleValue);
        r := EmitNode(e, d, next, false, true);
        return;
      }
      PutIndicator("?", true, false, false);
      KeepState(FlowMappingValue);
      r := EmitNode(e, d, next, false, false);
    }

    method EmitFlowValue(e: Event, d: Data, next: Option<Event>, simple: bool) returns (r: Option<Problem>)
      requires Analyzed(e, d) && !EmitFlowMappingValue(View(), e, d, next, simple).Crash?
      modifies this, writer
      ensures Matches(EmitFlowMappingValue(old(View()), e, d, next, simple), r, View())
      ensures events == old(events) && head == old(head)
    {
      hide EmitterMachine.EmitNode;
      if simple {
        PutIndicator(":", false, false, false);
      } else {
        if canonical || writer.column > writer.bestWidth { PutIndent(); }
        PutIndicator(":", true, false, false);
      }
      KeepState(FlowMappingKey);
      r := EmitNode(e, d, next, false, false);
    }

    // ----- Block collections -----

    method EmitBlockSequenceItem(e: Event, d: Data, next: Option<Event>, first: bool) returns (r: Option<Problem>)
      requires Analyzed(e, d) && !EmitBlockSequence(View(), e, d, next, first).Crash?
      modifies this, writer
      ensures Matches(EmitBlockSequence(old(View()), e, d, next, first), r, View())
      ensures events == old(events) && head == old(head)
    {
      hide EmitterMachine.EmitNode, WriteIndent;
      if first { IncreaseIndent(false); }
      if e.SequenceEnd? {
        DropIndent();
        DropState();
        return None;
      }
      PutIndent();
      PutIndicator("-", true, false, true);
      KeepState(BlockSequenceItem);
      r := EmitNode(e, d, next, false, false);
    }

    method EmitBlockMappingEntry(e: Event, d: Data, next: Option<Event>, first: bool) returns (r: Option<Problem>)
      requires Analyzed(e, d) && !EmitBlockMappingKey(View(), e, d, next, first).Crash?
      modifies this, writer
      ensures Matches(EmitBlockMappingKey(old(View()), e, d, next, first), r, View())
      ensures events == old(events) && head == old(head)
    {
      hide EmitterMachine.EmitNode, WriteIndent, IsSimpleKey;
      if first { IncreaseIndent(false); }
      if e.MappingEnd? {
        DropIndent();
        DropState();
        return None;
      }
      PutIndent();
      var simple := CheckSimpleKey(e, d, next);
      if simple {
        KeepState(BlockMappingSimpleValue);
        r := EmitNode(e, d, next, false, true);
        return;
      }
      PutIndicator("?", true, false, true);
      KeepState(BlockMappingValue);
      r := EmitNode(e, d, next, false, false);
    }

    method EmitBlockValue(e: Event, d: Data, next: Option<Event>, simple: bool) returns (r: Option<Problem>)
      requires Analyzed(e, d) && !EmitBlockMappingValue(View(), e, d, next, simple).Crash?
      modifies this, writer
      ensures Matches(EmitBlockMappingValue(old(View()), e, d, next, simple), r, View())
      ensures events == old(events) && head == old(head)
    {
      hide EmitterMachine.EmitNode, WriteIndent;
      if simple {
        PutIndicator(":", false, false, false);
      } else {
        PutIndent();
        PutIndicator(":", true, false, true);
      }
      KeepState(BlockMappingKey);
      r := EmitNode(e, d, next, false, false);
    }

    // ----- Stream and documents -----

    method EmitStream(e: Event) returns (r: Option<Problem>)
      modifies this, writer
      ensures Matches(EmitStreamStart(old(View()), e), r, View())
      ensures events == old(events) && head == old(head)
    {
      if !e.StreamStart? { return Some(ExpectedStreamStart); }
      if bestIndent < 2 || bestIndent > 9 { bestIndent := 2; }
      if writer.bestWidth >= 0 && writer.bestWidth <= bestIndent * 2 { writer.bestWidth := 80; }
      if writer.bestWidth < 0 { writer.bestWidth := 0x7FFF_FFFF; }
      writer.indent := -1;
      writer.column, writer.whitespace, writer.indention, writer.footIndent := 0, true, true, -1;
      state := FirstDocumentStart;
      r := None;
    }

    method AppendDirectives(given: seq<(string, string)>) returns (r: Option<Problem>)
      modifies this`directives
      ensures match AddDirectives(old(directives), given)
        case Directives(ds) => r == None && View() == old(View()).(directives := AddDefaults(ds))
        case DirectiveError(problem) => r == Some(problem)
    {
      var i := 0;
      while i < |given|
        invariant 0 <= i <= |given|
        invariant AddDirectives(directives, given[i..]) == AddDirectives(old(directives), given)
      {
        if !ValidDirective(given[i]) { return Some(BadDirective); }
        if HasHandle(directives, given[i].0) { return Some(DuplicateDirective); }
        directives := directives + [given[i]];
        assert given[i..][1..] == given[i + 1..];
        i := i + 1;
      }
      ghost var ds := directives;
      if !HasHandle(directives, DEFAULT_DIRECTIVES[0].0) { directives := directives + [DEFAULT_DIRECTIVES[0]]; }
      if !HasHandle(directives, DEFAULT_DIRECTIVES[1].0) { directives := directives + [DEFAULT_DIRECTIVES[1]]; }
      r := None;
    }

    method PutDots()
      modifies writer
      ensures View() == WriteDots(old(View()))
    {
      PutIndicator("...", true, false, false);
      PutIndent();
    }

    method PutDirectives(given: seq<(string, string)>)
      modifies writer
      ensures View() == WriteDirectives(old(View()), given)
    {
      hide Indicator, Indent, Word;
      var i := 0;
      while i < |given|
        invariant 0 <= i <= |given|
        invariant WriteDirectives(View(), given[i..]) == WriteDirectives(old(View()), given)
      {
        PutIndicator("%TAG", true, false, false);
        PutWord(given[i].0, true);
        PutTagContent(given[i].1, true);
        PutIndent();
        assert given[i..][1..] == given[i + 1..];
        i := i + 1;
      }
    }

    method PutDocumentHeader(e: Event, first: bool)
      requires e.DocumentStart?
      modifies writer
      ensures View() == DocumentHeader(old(View()), e, first)
    {
      hide WriteDirectives, WriteDots, Indicator, Indent;
      var implicit := e.implicitStart;
      if !first || canonical { implicit := false; }
      if writer.openEnded && (e.version || e.directives != []) { PutDots(); }
      if e.version {
        implicit := false;
        PutIndicator("%YAML", true, false, false);
        PutIndicator("1.1", true, false, false);
        PutIndent();
      }
      NoDirectives(View());
      if |e.directives| > 0 {
        implicit := false;
        PutDirectives(e.directives);
      }
      if !implicit {
        PutIndent();
        PutIndicator("---", true, false, false);
        PutIndent();
      }
    }

    method EmitDocument(e: Event, first: bool) returns (r: Option<Problem>)
      modifies this, writer
      ensures Matches(EmitDocumentStart(old(View()), e, first), r, View())
      ensures events == old(events) && head == old(head)
    {
      hide DocumentHeader, WriteDots, AddDirectives, AddDefaults;
      if e.DocumentStart? {
        r := AppendDirectives(e.directives);
        if r.Some? { return; }
        PutDocumentHeader(e, first);
        state := DocumentContent;
      } else if e.StreamEnd? {
        if writer.openEnded { PutDots(); }
        state := EndState;
        r := None;
      } else {
        r := Some(ExpectedDocumentStart);
      }
    }

    method EmitDocumentClose(e: Event) returns (r: Option<Problem>)
      modifies this, writer
      ensures Matches(EmitDocumentEnd(old(View()), e), r, View())
      ensures events == old(events) && head == old(head)
    {
      hide WriteDots, WriteIndent;
      if !e.DocumentEnd? { return Some(ExpectedDocumentEnd); }
      writer.footIndent := 0;
      writer.footIndent := -1;
      PutIndent();
      if !e.implicitEnd { PutDots(); }
      state := NextDocumentStart;
      directives := [];
      r := None;
    }

    // ----- Events -----

    method StateMachine(e: Event, d: Data, next: Option<Event>) returns (r: Option<Problem>)
      requires Analyzed(e, d) && !Dispatch(View(), e, d, next).Crash?
      modifies this, writer
      ensures Matches(Dispatch(old(View()), e, d, next), r, View())
      ensures events == old(events) && head == old(head)
    {
      hide EmitStreamStart, EmitDocumentStart, EmitDocumentEnd, EmitterMachine.EmitNode, EmitFlowSequence, EmitFlowMappingKey,
        EmitFlowMappingValue, EmitBlockSequence, EmitBlockMappingKey, EmitBlockMappingValue;
      match state {
        case StreamStartState => r := EmitStream(e);
        case FirstDocumentStart => r := EmitDocument(e, true);
        case NextDocumentStart => r := EmitDocument(e, false);
        case DocumentContent =>
          KeepState(DocumentEndState);
          r := EmitNode(e, d, next, true, false);
        case DocumentEndState => r := EmitDocumentClose(e);
        case FlowSequenceFirstItem => r := EmitFlowSequenceItem(e, d, next, true);
        case FlowSequenceItem => r := EmitFlowSequenceItem(e, d, next, false);
        case FlowMappingFirstKey => r := EmitFlowMappingEntry(e, d, next, true);
        case FlowMappingKey => r := EmitFlowMappingEntry(e, d, next, false);
        case FlowMappingSimpleValue => r := EmitFlowValue(e, d, next, true);
        case FlowMappingValue => r := EmitFlowValue(e, d, next, false);
        case BlockSequenceFirstItem => r := EmitBlockSequenceItem(e, d, next, true);
        case BlockSequenceItem => r := EmitBlockSequenceItem(e, d, next, false);
        case BlockMappingFirstKey => r := EmitBlockMappingEntry(e, d, next, true);
        case BlockMappingKey => r := EmitBlockMappingEntry(e, d, next, false);
        case BlockMappingSimpleValue => r := EmitBlockValue(e, d, next, true);
        case BlockMappingValue => r := EmitBlockValue(e, d, next, false);
        case EndState => r := Some(ExpectedNothing);
      }
    }

    /** `need_more_events`. */
    method NeedMoreEvents() returns (more: bool)
      requires head <= |events|
      ensures more == NeedsMore(events, head)
    {
      if head == |events| { return true; }
      var accumulate := Accumulate(events[head]);
      if accumulate == 0 { return false; }
      if |events| - head > accumulate { return false; }
      var level, i := 0, head;
      while i < |events|
        invariant head <= i <= |events|
        invariant level == Level(events, head, i)
        invariant forall k :: head < k <= i ==> Level(events, head, k) != 0
      {
        level := level + Rise(events[i]);
        i := i + 1;
        if level == 0 {
          assert Level(events, head, i) == 0;
          return false;
        }
      }
      more := true;
    }

    /** One turn of the loop in `yaml_emitter_emit`: the event at the head. */
    method EmitHead() returns (r: Option<Problem>)
      requires head < |events| && !NeedsMore(events, head)
      requires EmitRange(Initial(initial), events, 0, head) == Done(View())
      modifies this, writer
      ensures events == old(events)
      ensures r.None? ==>
        && head == old(head) + 1 && EmitRange(Initial(initial), events, 0, head) == Done(View())
        && (head == |events| ==> !OpensCollection(events[head - 1]))
      ensures r.Some? ==> !IsPrefix(events) || !AllAcceptable(events, 0, |events|)
    {
      hide EmitEvent, Dispatch, Acceptable, Coherent, NeedsMore, AnalyzeEvent;
      if OpensCollection(events[head]) { SuccessorQueued(events, head); }
      InitialIsCoherent(initial);
      StepOf(Initial(initial), events, head, View());
      var e := events[head];
      var next := if head + 1 < |events| then Some(events[head + 1]) else None;
      assert next == Look(events, head);
      var d := Analyze(e);
      if d.None? { return Some(BadAnchor); }
      r := StateMachine(e, d.value, next);
      if r.None? { head := head + 1; }
    }

    /** `yaml_emitter_emit`. An event is refused only when the events so far are not a usable prefix
        of a stream; at the end of a stream everything has been emitted. */
    method Emit(event: Event) returns (r: Option<Problem>)
      requires Valid()
      modifies this, writer
      ensures events == old(events) + [event]
      ensures r.None? ==> Valid()
      ensures r.None? && IsStream(events) ==> head == |events| && state == EndState
      ensures r.Some? ==> !IsPrefix(events) || !AllAcceptable(events, 0, |events|)
    {
      hide EmitRange, Acceptable, Coherent, NeedsMore, EmitterGrammar.StackOf, Run, Step;
      RangeExtends(Initial(initial), events, event, 0, head);
      events := events + [event];
      var more := NeedMoreEvents();
      if !more { assert head < |events| by { AtEndNeedsMore(events, head); } }
      while !more
        invariant head <= |events| && events == old(events) + [event]
        invariant EmitRange(Initial(initial), events, 0, head) == Done(View())
        invariant more == NeedsMore(events, head)
        invariant 0 < head == |events| ==> !OpensCollection(events[head - 1])
        decreases |events| - head
      {
        AtEndNeedsMore(events, head);
        r := EmitHead();
        if r.Some? { return; }
        more := NeedMoreEvents();
      }
      r := None;
      InitialIsCoherent(initial);
      if IsStream(events) { Finished(Initial(initial), events, head, View()); }
    }
  }

  lemma AtEndNeedsMore(evs: seq<Event>, p: nat)
    requires p <= |evs|
    ensures p == |evs| ==> NeedsMore(evs, p)
  {
  }

  lemma NoDirectives(m: M)
    ensures WriteDirectives(m, []) == m
  {
  }

  /** The next step of a run: it does not crash, and when it is refused so is the sequence of events. */
  lemma StepOf(m0: M, evs: seq<Event>, k: nat, m: M)
    requires Coherent(m0) && StackOf(m0) == START && k < |evs| && EmitRange(m0, evs, 0, k) == Done(m)
    ensures EmitEvent(m, evs[k], Look(evs, k)) == match AnalyzeEvent(m, evs[k])
      case None => Refused(BadAnchor)
      case Some(d) => Dispatch(m, evs[k], d, Look(evs, k))
    ensures match EmitEvent(m, evs[k], Look(evs, k))
      case Done(n) => EmitRange(m0, evs, 0, k + 1) == Done(n)
      case Refused(_) => !IsPrefix(evs) || !AllAcceptable(evs, 0, |evs|)
      case Crash => false
  {
    hide Dispatch, Coherent, Acceptable;
    RangeSplit(m0, evs, 0, k, k + 1);
    OneEvent(m, evs, k);
    RangeSplit(m0, evs, 0, k + 1, |evs|);
    AcceptedIff(m0, evs, 0);
  }

  lemma Finished(m0: M, evs: seq<Event>, k: nat, m: M)
    requires Coherent(m0) && StackOf(m0) == START && k <= |evs| && EmitRange(m0, evs, 0, k) == Done(m)
    requires NeedsMore(evs, k) && IsStream(evs)
    ensures k == |evs| && m.state == EndState
  {
    RangeRuns(m0, evs, 0, k);
    NothingWaits(StackOf(m), evs, k);
    EmptyStackIsEnd(m);
  }
}
