/** The parser object (parserc.go): its productions assign the fields of the struct in place. Each is
    proved to compute the production of the same name in module Parser, and `Parse` to keep the
    invariant under which no stack is popped empty. */
module EventParser {
  import opened Options
  import opened Events
  import opened Tokens
  import opened Parser
  import opened ParserGrammar

  datatype Result = Parsed(event: Event) | Failed(problem: Problem)

  /** The production's outcome `o` is the result `r` with the fields at `after`. */
  predicate Matches(o: Outcome, r: Result, after: P) {
    match o
    case Emit(e, next) => r == Parsed(e) && after == next
    case Error(problem) => r == Failed(problem)
    case Crash => false
  }

  class TokenParser {
    const tokens: seq<Token>
    var pos: nat
    var state: State
    var states: seq<State>
    var marks: seq<nat>
    var directives: seq<(string, string)>

    ghost function View(): P
      reads this
    {
      P(tokens, pos, state, states, marks, directives)
    }

    constructor (input: seq<Token>)
      ensures View() == Initial(input)
      ensures Coherent(View()) && tokens == input
    {
      tokens, pos, state, states, marks, directives := input, 0, StreamStartState, [], [], [];
    }

    /** `peek_token`: None when the scanner has failed. */
    method PeekToken() returns (t: Option<Token>)
      ensures t == if HasToken(View()) then Some(Peek(View())) else None
    {
      if pos < |tokens| { t := Some(tokens[pos]); } else { t := None; }
    }

    method SkipToken()
      requires HasToken(View())
      modifies this`pos
      ensures View() == Skip(old(View()))
    {
      pos := pos + 1;
    }

    method PushState(s: State)
      modifies this`states
      ensures View() == Push(old(View()), s)
    {
      states := states + [s];
    }

    method PopState()
      requires states != []
      modifies this`state, this`states
      ensures View() == old(View()).(state := Last(old(states)), states := Init(old(states)))
    {
      state := states[|states| - 1];
      states := states[..|states| - 1];
    }

    method PushMark()
      requires HasToken(View())
      modifies this`marks, this`pos
      ensures View() == Enter(old(View()))
    {
      marks := marks + [pos];
      SkipToken();
    }

    /** `set_parser_error_context`, with the innermost mark as the context. */
    method FailAtMark(problem: Problem) returns (r: Result)
      requires marks != []
      modifies this`marks
      ensures r == Failed(problem)
    {
      marks := marks[..|marks| - 1];
      r := Failed(problem);
    }

    // ----- Directives -----

    /** None on success. */
    method ProcessDirectives() returns (failed: Option<Problem>, version: bool, tags: seq<(string, string)>)
      modifies this`pos, this`directives
      ensures match Parser.ProcessDirectives(old(View()), false, [])
        case BadDirective(problem) => failed == Some(problem)
        case Directives(q, v, ts) => failed == None && version == v && tags == ts && View() == q
    {
      version, tags := false, [];
      var t := PeekToken();
      if t == None { return Some(OutOfTokens), version, tags; }
      while t.value.VersionDirective? || t.value.TagDirective?
        invariant t == if HasToken(View()) then Some(Peek(View())) else None
        invariant t.Some?
        invariant View() == old(View()).(pos := pos, directives := directives)
        invariant Parser.ProcessDirectives(View(), version, tags) == Parser.ProcessDirectives(old(View()), false, [])
        decreases |tokens| - pos
      {
        match t.value {
          case VersionDirective(major, minor) =>
            if version { return Some(DuplicateVersion), version, tags; }
            if major != 1 || minor != 1 { return Some(IncompatibleDocument), version, tags; }
            version := true;
          case TagDirective(handle, prefix) =>
            var known := HasHandle(directives, handle);
            if known { return Some(DuplicateTagDirective), version, tags; }
            directives := directives + [(handle, prefix)];
            tags := tags + [(handle, prefix)];
        }
        SkipToken();
        t := PeekToken();
        if t == None { return Some(OutOfTokens), version, tags; }
      }
      var i := 0;
      ghost var given, before := directives, View();
      assert Parser.ProcessDirectives(before, version, tags) == Directives(before.(directives := AddDefaults(given)), version, tags);
      while i < |DEFAULT_DIRECTIVES|
        invariant 0 <= i <= |DEFAULT_DIRECTIVES| == 2
        invariant View() == before.(directives := directives)
        invariant i == 0 ==> directives == given
        invariant i == 1 ==> directives == if HasHandle(given, "!") then given else given + [DEFAULT_DIRECTIVES[0]]
        invariant i == 2 ==> directives == AddDefaults(given)
      {
        if !HasHandle(directives, DEFAULT_DIRECTIVES[i].0) { directives := directives + [DEFAULT_DIRECTIVES[i]]; }
        i := i + 1;
      }
      failed := None;
    }

    // ----- Documents -----

    method ParseStreamStart() returns (r: Result)
      requires !Parser.ParseStreamStart(View()).Crash?
      modifies this
      ensures Matches(Parser.ParseStreamStart(old(View())), r, View())
    {
      var t := PeekToken();
      if t == None { return Failed(OutOfTokens); }
      if !t.value.StreamStartToken? { return Failed(ExpectedStreamStart); }
      state := ImplicitDocumentStart;
      SkipToken();
      r := Parsed(StreamStart);
    }

    method ParseDocumentStart(implicit: bool) returns (r: Result)
      requires !Parser.ParseDocumentStart(View(), implicit).Crash?
      modifies this
      ensures Matches(Parser.ParseDocumentStart(old(View()), implicit), r, View())
    {
      var t := PeekToken();
      if t == None { return Failed(OutOfTokens); }
      if !implicit {
        while t.value.DocumentEndToken?
          invariant t == if HasToken(View()) then Some(Peek(View())) else None
          invariant t.Some?
          invariant View() == old(View()).(pos := pos)
          invariant SkipDocumentEnds(View()) == SkipDocumentEnds(old(View()))
          decreases |tokens| - pos
        {
          SkipToken();
          t := PeekToken();
          if t == None { return Failed(OutOfTokens); }
        }
      }
      if implicit && !t.value.VersionDirective? && !t.value.TagDirective? && !t.value.DocumentStartToken? && !t.value.StreamEndToken? {
        var failed, _, _ := ProcessDirectives();
        if failed.Some? { return Failed(failed.value); }
        PushState(DocumentEndState);
        state := BlockNode;
        r := Parsed(DocumentStart(false, false, []));
      } else if !t.value.StreamEndToken? {
        var failed, version, tags := ProcessDirectives();
        if failed.Some? { return Failed(failed.value); }
        t := PeekToken();
        if t == None { return Failed(OutOfTokens); }
        if !t.value.DocumentStartToken? { return Failed(ExpectedDocumentStart); }
        PushState(DocumentEndState);
        state := DocumentContent;
        SkipToken();
        r := Parsed(DocumentStart(false, version, tags));
      } else {
        state := EndState;
        SkipToken();
        r := Parsed(StreamEnd);
      }
    }

    method ParseDocumentContent() returns (r: Result)
      requires !Parser.ParseDocumentContent(View()).Crash?
      modifies this
      ensures Matches(Parser.ParseDocumentContent(old(View())), r, View())
    {
      var t := PeekToken();
      if t == None { return Failed(OutOfTokens); }
      if t.value.VersionDirective? || t.value.TagDirective? || t.value.DocumentStartToken? || t.value.DocumentEndToken? || t.value.StreamEndToken? {
        PopState();
        r := Parsed(EMPTY_SCALAR);
      } else {
        r := ParseNode(true, false);
      }
    }

    method ParseDocumentEnd() returns (r: Result)
      requires !Parser.ParseDocumentEnd(View()).Crash?
      modifies this
      ensures Matches(Parser.ParseDocumentEnd(old(View())), r, View())
    {
      var t := PeekToken();
      if t == None { return Failed(OutOfTokens); }
      var implicit := true;
      if t.value.DocumentEndToken? {
        SkipToken();
        implicit := false;
      }
      directives := [];
      state := DocumentStartState;
      r := Parsed(DocumentEnd(implicit));
    }

    // ----- Nodes -----

    /** Anchor and tag, in either order. False when the scanner fails. */
    method ReadProperties() returns (ok: bool, anchor: string, tag: Option<(string, string)>)
      requires HasToken(View())
      modifies this`pos
      ensures match Parser.ReadProperties(old(View()))
        case NoToken => !ok
        case Properties(q, a, t) => ok && anchor == a && tag == t && View() == q
    {
      ok, anchor, tag := true, "", None;
      var t := PeekToken();
      match t.value {
        case Anchor(name) =>
          anchor := name;
          SkipToken();
          t := PeekToken();
          if t == None { return false, anchor, tag; }
          if t.value.Tag? {
            tag := Some((t.value.handle, t.value.suffix));
            SkipToken();
            t := PeekToken();
            ok := t != None;
          }
        case Tag(handle, suffix) =>
          tag := Some((handle, suffix));
          SkipToken();
          t := PeekToken();
          if t == None { return false, anchor, tag; }
          if t.value.Anchor? {
            anchor := t.value.name;
            SkipToken();
            t := PeekToken();
            ok := t != None;
          }
        case _ =>
      }
    }

    /** The prefix of the first directive with this handle. */
    method FindPrefix(handle: string) returns (prefix: Option<string>)
      ensures prefix == Prefix(directives, handle)
    {
      var i := 0;
      while i < |directives|
        invariant 0 <= i <= |directives|
        invariant Prefix(directives[i..], handle) == Prefix(directives, handle)
      {
        if directives[i].0 == handle { return Some(directives[i].1); }
        assert directives[i..][1..] == directives[i + 1..];
        i := i + 1;
      }
      prefix := None;
    }

    method ParseNode(block: bool, indentless: bool) returns (r: Result)
      requires !Parser.ParseNode(View(), block, indentless).Crash?
      modifies this
      ensures Matches(Parser.ParseNode(old(View()), block, indentless), r, View())
    {
      var t := PeekToken();
      if t == None { return Failed(OutOfTokens); }
      if t.value.AliasToken? {
        PopState();
        SkipToken();
        return Parsed(Alias(t.value.name));
      }
      var ok, anchor, rawTag := ReadProperties();
      if !ok { return Failed(OutOfTokens); }
      var tag := "";
      if rawTag.Some? {
        var (handle, suffix) := rawTag.value;
        if handle == "" {
          tag := suffix;
        } else {
          var prefix := FindPrefix(handle);
          if prefix.Some? { tag := prefix.value + suffix; }
          if tag == "" { return Failed(UndefinedTagHandle); }
        }
      }
      assert ResolveTag(directives, rawTag) == Some(tag);
      r := ParseContent(anchor, tag, block, indentless);
    }

    method ParseContent(anchor: string, tag: string, block: bool, indentless: bool) returns (r: Result)
      requires HasToken(View()) && !Parser.ParseContent(View(), anchor, tag, block, indentless).Crash?
      modifies this
      ensures Matches(Parser.ParseContent(old(View()), anchor, tag, block, indentless), r, View())
    {
      var implicit := tag == "";
      var t := tokens[pos];
      if indentless && t.BlockEntry? {
        state := IndentlessSequenceEntry;
        r := Parsed(SequenceStart(anchor, tag, implicit, Block));
      } else if t.ScalarToken? {
        var plainImplicit, quotedImplicit := false, false;
        if (tag == "" && t.style.PlainStyle?) || tag == "!" {
          plainImplicit := true;
        } else if tag == "" {
          quotedImplicit := true;
        }
        PopState();
        SkipToken();
        r := Parsed(Scalar(anchor, tag, t.value, plainImplicit, quotedImplicit, t.style));
      } else if t.FlowSequenceStart? {
        state := FlowSequenceFirstEntry;
        r := Parsed(SequenceStart(anchor, tag, implicit, Flow));
      } else if t.FlowMappingStart? {
        state := FlowMappingFirstKey;
        r := Parsed(MappingStart(anchor, tag, implicit, Flow));
      } else if block && t.BlockSequenceStart? {
        state := BlockSequenceFirstEntry;
        r := Parsed(SequenceStart(anchor, tag, implicit, Block));
      } else if block && t.BlockMappingStart? {
        state := BlockMappingFirstKey;
        r := Parsed(MappingStart(anchor, tag, implicit, Block));
      } else if anchor != "" || tag != "" {
        PopState();
        r := Parsed(Scalar(anchor, tag, "", implicit, false, PlainStyle));
      } else {
        r := Failed(ExpectedNode);
      }
    }

    /** The end of a collection: its continuation and its mark go. */
    method CloseCollection(e: Event) returns (r: Result)
      requires HasToken(View()) && states != [] && marks != []
      modifies this
      ensures Matches(EmitPopMark(Skip(old(View())), e), r, View())
    {
      PopState();
      marks := marks[..|marks| - 1];
      SkipToken();
      r := Parsed(e);
    }

    // ----- Block collections -----

    method ParseBlockSequenceEntry(first: bool) returns (r: Result)
      requires !Parser.ParseBlockSequenceEntry(View(), first).Crash?
      modifies this
      ensures Matches(Parser.ParseBlockSequenceEntry(old(View()), first), r, View())
    {
      hide Parser.ParseNode;
      var t := PeekToken();
      if first {
        if t == None { return Failed(OutOfTokens); }
        PushMark();
        t := PeekToken();
      }
      if t == None { return Failed(OutOfTokens); }
      if t.value.BlockEntry? {
        SkipToken();
        t := PeekToken();
        if t == None { return Failed(OutOfTokens); }
        if !t.value.BlockEntry? && !t.value.BlockEnd? {
          PushState(BlockSequenceEntry);
          r := ParseNode(true, false);
        } else {
          state := BlockSequenceEntry;
          r := Parsed(EMPTY_SCALAR);
        }
      } else if t.value.BlockEnd? {
        r := CloseCollection(SequenceEnd);
      } else {
        r := FailAtMark(ExpectedBlockEntry);
      }
    }

    method ParseIndentlessSequenceEntry() returns (r: Result)
      requires !Parser.ParseIndentlessSequenceEntry(View()).Crash?
      modifies this
      ensures Matches(Parser.ParseIndentlessSequenceEntry(old(View())), r, View())
    {
      hide Parser.ParseNode;
      var t := PeekToken();
      if t == None { return Failed(OutOfTokens); }
      if t.value.BlockEntry? {
        SkipToken();
        t := PeekToken();
        if t == None { return Failed(OutOfTokens); }
        if !t.value.BlockEntry? && !t.value.Key? && !t.value.Value? && !t.value.BlockEnd? {
          PushState(IndentlessSequenceEntry);
          r := ParseNode(true, false);
        } else {
          state := IndentlessSequenceEntry;
          r := Parsed(EMPTY_SCALAR);
        }
      } else {
        PopState();
        r := Parsed(SequenceEnd);
      }
    }

    method ParseBlockMappingKey(first: bool) returns (r: Result)
      requires !Parser.ParseBlockMappingKey(View(), first).Crash?
      modifies this
      ensures Matches(Parser.ParseBlockMappingKey(old(View()), first), r, View())
    {
      hide Parser.ParseNode;
      var t := PeekToken();
      if first {
        if t == None { return Failed(OutOfTokens); }
        PushMark();
        t := PeekToken();
      }
      if t == None { return Failed(OutOfTokens); }
      if t.value.Key? {
        SkipToken();
        t := PeekToken();
        if t == None { return Failed(OutOfTokens); }
        if !t.value.Key? && !t.value.Value? && !t.value.BlockEnd? {
          PushState(BlockMappingValue);
          r := ParseNode(true, true);
        } else {
          state := BlockMappingValue;
          r := Parsed(EMPTY_SCALAR);
        }
      } else if t.value.BlockEnd? {
        r := CloseCollection(MappingEnd);
      } else {
        r := FailAtMark(ExpectedKey);
      }
    }

    method ParseBlockMappingValue() returns (r: Result)
      requires !Parser.ParseBlockMappingValue(View()).Crash?
      modifies this
      ensures Matches(Parser.ParseBlockMappingValue(old(View())), r, View())
    {
      hide Parser.ParseNode;
      var t := PeekToken();
      if t == None { return Failed(OutOfTokens); }
      if t.value.Value? {
        SkipToken();
        t := PeekToken();
        if t == None { return Failed(OutOfTokens); }
        if !t.value.Key? && !t.value.Value? && !t.value.BlockEnd? {
          PushState(BlockMappingKey);
          r := ParseNode(true, true);
          return;
        }
      }
      state := BlockMappingKey;
      r := Parsed(EMPTY_SCALAR);
    }

    // ----- Flow collections -----

    method ParseFlowSequenceEntry(first: bool) returns (r: Result)
      requires !Parser.ParseFlowSequenceEntry(View(), first).Crash?
      modifies this
      ensures Matches(Parser.ParseFlowSequenceEntry(old(View()), first), r, View())
    {
      hide Parser.ParseNode;
      var t := PeekToken();
      if first {
        if t == None { return Failed(OutOfTokens); }
        PushMark();
        t := PeekToken();
      }
      if t == None { return Failed(OutOfTokens); }
      if !t.value.FlowSequenceEnd? {
        if !first {
          if t.value.FlowEntry? {
            SkipToken();
            t := PeekToken();
            if t == None { return Failed(OutOfTokens); }
          } else {
            r := FailAtMark(ExpectedFlowSequenceEnd);
            return;
          }
        }
        if t.value.Key? {
          state := FlowSequenceEntryMappingKey;
          SkipToken();
          r := Parsed(MappingStart("", "", true, Flow));
          return;
        } else if !t.value.FlowSequenceEnd? {
          PushState(FlowSequenceEntry);
          r := ParseNode(false, false);
          return;
        }
      }
      r := CloseCollection(SequenceEnd);
    }

    method ParseFlowSequenceEntryMappingKey() returns (r: Result)
      requires !Parser.ParseFlowSequenceEntryMappingKey(View()).Crash?
      modifies this
      ensures Matches(Parser.ParseFlowSequenceEntryMappingKey(old(View())), r, View())
    {
      hide Parser.ParseNode;
      var t := PeekToken();
      if t == None { return Failed(OutOfTokens); }
      if !t.value.Value? && !t.value.FlowEntry? && !t.value.FlowSequenceEnd? {
        PushState(FlowSequenceEntryMappingValue);
        r := ParseNode(false, false);
        return;
      }
      SkipToken();
      state := FlowSequenceEntryMappingValue;
      r := Parsed(EMPTY_SCALAR);
    }

    method ParseFlowSequenceEntryMappingValue() returns (r: Result)
      requires !Parser.ParseFlowSequenceEntryMappingValue(View()).Crash?
      modifies this
      ensures Matches(Parser.ParseFlowSequenceEntryMappingValue(old(View())), r, View())
    {
      hide Parser.ParseNode;
      var t := PeekToken();
      if t == None { return Failed(OutOfTokens); }
      if t.value.Value? {
        SkipToken();
        t := PeekToken();
        if t == None { return Failed(OutOfTokens); }
        if !t.value.FlowEntry? && !t.value.FlowSequenceEnd? {
          PushState(FlowSequenceEntryMappingEnd);
          r := ParseNode(false, false);
          return;
        }
      }
      state := FlowSequenceEntryMappingEnd;
      r := Parsed(EMPTY_SCALAR);
    }

    method ParseFlowSequenceEntryMappingEnd() returns (r: Result)
      requires !Parser.ParseFlowSequenceEntryMappingEnd(View()).Crash?
      modifies this
      ensures Matches(Parser.ParseFlowSequenceEntryMappingEnd(old(View())), r, View())
    {
      var t := PeekToken();
      if t == None { return Failed(OutOfTokens); }
      state := FlowSequenceEntry;
      r := Parsed(MappingEnd);
    }

    method ParseFlowMappingKey(first: bool) returns (r: Result)
      requires !Parser.ParseFlowMappingKey(View(), first).Crash?
      modifies this
      ensures Matches(Parser.ParseFlowMappingKey(old(View()), first), r, View())
    {
      hide Parser.ParseNode;
      if first {
        PushMark();
      }
      var t := PeekToken();
      if t == None { return Failed(OutOfTokens); }
      if !t.value.FlowMappingEnd? {
        if !first {
          if t.value.FlowEntry? {
            SkipToken();
            t := PeekToken();
            if t == None { return Failed(OutOfTokens); }
          } else {
            r := FailAtMark(ExpectedFlowMappingEnd);
            return;
          }
        }
        if t.value.Key? {
          SkipToken();
          t := PeekToken();
          if t == None { return Failed(OutOfTokens); }
          if !t.value.Value? && !t.value.FlowEntry? && !t.value.FlowMappingEnd? {
            PushState(FlowMappingValue);
            r := ParseNode(false, false);
          } else {
            state := FlowMappingValue;
            r := Parsed(EMPTY_SCALAR);
          }
          return;
        } else if !t.value.FlowMappingEnd? {
          PushState(FlowMappingEmptyValue);
          r := ParseNode(false, false);
          return;
        }
      }
      r := CloseCollection(MappingEnd);
    }

    method ParseFlowMappingValue(empty: bool) returns (r: Result)
      requires !Parser.ParseFlowMappingValue(View(), empty).Crash?
      modifies this
      ensures Matches(Parser.ParseFlowMappingValue(old(View()), empty), r, View())
    {
      hide Parser.ParseNode;
      var t := PeekToken();
      if t == None { return Failed(OutOfTokens); }
      if empty {
        state := FlowMappingKey;
        return Parsed(EMPTY_SCALAR);
      }
      if t.value.Value? {
        SkipToken();
        t := PeekToken();
        if t == None { return Failed(OutOfTokens); }
        if !t.value.FlowEntry? && !t.value.FlowMappingEnd? {
          PushState(FlowMappingKey);
          r := ParseNode(false, false);
          return;
        }
      }
      state := FlowMappingKey;
      r := Parsed(EMPTY_SCALAR);
    }

    /** `yaml_parser_parse` between STREAM-START and STREAM-END: one event that the event grammar
        allows, or an error; the invariant is kept and the measure goes down. */
    method Parse() returns (r: Result)
      requires Coherent(View()) && !state.EndState? && pos <= |tokens|
      modifies this
      ensures Matches(Next(old(View())), r, View())
      ensures r.Parsed? ==>
        && Coherent(View()) && pos <= |tokens|
        && Step(StackOf(old(View())), r.event) == Some(StackOf(View()))
        && Measure(View()) < Measure(old(View()))
    {
      NextSimulates(View());
      hide Coherent, StackOf, Measure, Parser.ParseNode;
      match state {
        case StreamStartState => r := ParseStreamStart();
        case ImplicitDocumentStart => r := ParseDocumentStart(true);
        case DocumentStartState => r := ParseDocumentStart(false);
        case DocumentContent => r := ParseDocumentContent();
        case DocumentEndState => r := ParseDocumentEnd();
        case BlockNode => r := ParseNode(true, false);
        case BlockSequenceFirstEntry => r := ParseBlockSequenceEntry(true);
        case BlockSequenceEntry => r := ParseBlockSequenceEntry(false);
        case IndentlessSequenceEntry => r := ParseIndentlessSequenceEntry();
        case BlockMappingFirstKey => r := ParseBlockMappingKey(true);
        case BlockMappingKey => r := ParseBlockMappingKey(false);
        case BlockMappingValue => r := ParseBlockMappingValue();
        case FlowSequenceFirstEntry => r := ParseFlowSequenceEntry(true);
        case FlowSequenceEntry => r := ParseFlowSequenceEntry(false);
        case FlowSequenceEntryMappingKey => r := ParseFlowSequenceEntryMappingKey();
        case FlowSequenceEntryMappingValue => r := ParseFlowSequenceEntryMappingValue();
        case FlowSequenceEntryMappingEnd => r := ParseFlowSequenceEntryMappingEnd();
        case FlowMappingFirstKey => r := ParseFlowMappingKey(true);
        case FlowMappingKey => r := ParseFlowMappingKey(false);
        case FlowMappingValue => r := ParseFlowMappingValue(false);
        case FlowMappingEmptyValue => r := ParseFlowMappingValue(true);
      }
    }
  }
}
