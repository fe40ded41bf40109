/** The state machine meets the assumptions of the scalar round trips: wherever it prints a scalar,
    the indentation is positive and no foot comment is pending, so the text reads back. */
module EmittedScalars {
  import opened Options
  import opened Events
  import opened ScalarEmitter
  import opened ScalarScanner
  import opened TextReading
  import opened PlainScalars
  import opened ScalarRoundTrip
  import opened EmitterMachine
  import opened EmitterGrammar

  /** The emitter just before the text of the scalar: anchor and tag printed, indentation increased. */
  ghost function BeforeText(m: M, e: Event, d: Data, simpleKey: bool): M
    requires Ready(m) && e.Scalar?
  {
    var noTag := d.handle == "" && d.suffix == "";
    var d1 := if noTag && !e.quotedImplicit && !ChosenStyle(m, e, d, simpleKey).Plain? then d.(handle := "!") else d;
    var m1 := ProcessTag(ProcessAnchor(m, d), d1);
    m1.(indents := m1.indents + [m1.indent], indent := if m1.settings.bestIndent > 0 then Deeper(m1, true) else 0)
  }

  predicate Quotes(style: Style, v: string) { (style.Plain? && v != "") || style.SingleQuoted? || style.DoubleQuoted? }

  lemma ScalarText(m: M, e: Event, d: Data, root: bool, simpleKey: bool)
    requires Ready(m) && e.Scalar? && Usable(e) && AnalyzeEvent(m, e) == Some(d) && (root ==> |m.states| == 1)
    ensures var b, style, o := BeforeText(m, e, d, simpleKey), ChosenStyle(m, e, d, simpleKey), EmitScalar(m, e, d, root, simpleKey);
      && b.indent > 0 && b.sink.footIndent == -1 && o.Done?
      && (Quotes(style, e.value) ==> o.next.sink == WriteScalar(Cfg(b), b.sink, e.value, style, !simpleKey))
  {
    hide ProcessTag, ProcessAnchor, ChosenStyle, WriteScalar, Deeper, AnalyzeEvent, Ready, Ladder, UsableHandles;
    ReadyTidy(m);
    var noTag := d.handle == "" && d.suffix == "";
    var style := ChosenStyle(m, e, d, simpleKey);
    var d1 := if noTag && !e.quotedImplicit && !style.Plain? then d.(handle := "!") else d;
    PropertiesPrint(m, d, d1);
    PrintedTidy(m, ProcessTag(ProcessAnchor(m, d), d1));
    FlowDeeper(ProcessTag(ProcessAnchor(m, d), d1));
    ScalarReady(m, e, d, root, simpleKey);
  }

  lemma FlowDeeper(m: M)
    requires Tidy(m)
    ensures Deeper(m, true) > 0
  {
    DeeperRises(m, true);
  }

  lemma ReadyTidy(m: M)
    requires Ready(m)
    ensures Tidy(m)
  {
  }

  lemma EmittedScalarReadsBack(m: M, e: Event, d: Data, root: bool, simpleKey: bool, rest: string, w: Where)
    requires Ready(m) && e.Scalar? && Usable(e) && AnalyzeEvent(m, e) == Some(d) && (root ==> |m.states| == 1)
    requires w.flowLevel == m.flowLevel
    requires var b := BeforeText(m, e, d, simpleKey);
      w.flowLevel == 0 ==> Start(b.sink).column + 1 >= w.minColumn && b.indent >= w.minColumn
    ensures EmitScalar(m, e, d, root, simpleKey).Done?
    ensures var b, style := BeforeText(m, e, d, simpleKey), ChosenStyle(m, e, d, simpleKey);
      var f := EmitScalar(m, e, d, root, simpleKey).next.sink;
      var t := f.out + rest;
      Quotes(style, e.value) && MayFollow(style, rest, t, f, w) ==>
        && |Start(b.sink).out| < |t|
        && Reads(ScanToken(t, |Start(b.sink).out|, Start(b.sink).column, w), e.value)
  {
    hide BeforeText, SelectStyle, WriteScalar, MayFollow, ScanToken, EmitScalar, Ready, Start;
    var style, b := ChosenStyle(m, e, d, simpleKey), BeforeText(m, e, d, simpleKey);
    ScalarText(m, e, d, root, simpleKey);
    SameSettings(m, e, d, simpleKey);
    var ctx := Context(m.flowLevel, simpleKey, m.settings.canonical, d.handle == "" && d.suffix == "", e.implicit, e.quotedImplicit);
    ChosenStyleReadsBack(ctx, StyleOf(e.style), AnalysisOf(e.value, m.settings.unicode), e.value, Cfg(b), b.sink, rest, w);
  }

  lemma SameSettings(m: M, e: Event, d: Data, simpleKey: bool)
    requires Ready(m) && e.Scalar?
    ensures BeforeText(m, e, d, simpleKey).settings == m.settings
  {
    hide ChosenStyle;
  }
}
