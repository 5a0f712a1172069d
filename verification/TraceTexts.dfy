/**
  What a stack trace looks like, character by character, for one frame, for two,
  and how longer ones are put together from these.
 */
module TraceTexts {
  import opened Sequences
  import opened Trimming
  import opened Rendering

  /** `got` is `whole`, or what a buffer of 512 holds of it. */
  predicate CutTo511(got: string, whole: string)
  {
    if |whole| <= 511 then got == whole else |got| == 511 && got == whole[..511]
  }

  /** The text of a frame that the symbolizer names is that name. */
  lemma {:induction false} NamedFrame(h: Hooks, f: StackFrame, name: string)
    requires h.symbolize(f) == Some(name)
    ensures Label(h, f) == name
  {
  }

  /** The text of any other frame, by what is known of it. */
  lemma {:induction false} UnnamedFrame(h: Hooks, f: StackFrame, called: string, in_: string)
    requires h.symbolize(f) == None
    ensures f.function_ == Some(called) && f.filename == Some(in_) ==>
      CutTo511(Label(h, f), "0x" + f.address + " " + called + " at " + in_ + ":" + f.line)
    ensures f.function_ == Some(called) && f.filename == None ==>
      CutTo511(Label(h, f), "0x" + f.address + " " + called + " at (unknown file):" + f.line)
    ensures f.function_ == None && f.filename == Some(in_) ==>
      CutTo511(Label(h, f), "0x" + f.address + " (unknown function) at " + in_ + ":" + f.line)
    ensures f.function_ == None && f.filename == None ==>
      CutTo511(Label(h, f), "0x" + f.address + " (no symbol information)")
  {
    UnknownFile("0x" + f.address + " " + called, f.line);
    UnknownFunction("0x" + f.address, in_, f.line);
  }

  lemma {:induction false} UnknownFile(before: string, line: string)
    ensures before + " at " + "(unknown file)" + ":" + line == before + " at (unknown file):" + line
  {
  }

  lemma {:induction false} UnknownFunction(before: string, in_: string, line: string)
    ensures before + " " + "(unknown function)" + " at " + in_ + ":" + line
         == before + " (unknown function) at " + in_ + ":" + line
  {
  }

  // ----- one frame -----

  lemma {:induction false} OnePiece(h: Hooks, format: Format, f: StackFrame)
    ensures Pieces(h, format, [f]) == if h.isBoring(Label(h, f), -1) then [] else [Piece(h, format, f)]
  {
    PiecesNext(h, format, [], f);
    EmptyConcat([f]);
  }

  lemma {:induction false} JoinOne(piece: string, delim: string)
    ensures Join([piece], delim) == piece && Join([], delim) == ""
  {
  }

  /**
    One frame, with any hooks: nothing between the brackets if it is boring, and
    otherwise its text; of the trimmed text in brackets, as much as is asked for
    by what measures the trimmed text.
   */
  lemma {:induction false} OneFrame(h: Hooks, format: Format, f: StackFrame)
    ensures var text, trimmed := Label(h, f), h.trimBellyFat(Label(h, f));
      var size := h.trimArseFat(trimmed);
      Rendered(h, format, 0, [f]) ==
        if format.Linefeed? then (if h.isBoring(text, -1) then "\n" else text + "\n")
        else if h.isBoring(text, -1) then " : []"
        else if 0 <= size <= |trimmed| then " : [" + trimmed[..size] + "]"
        else " : [" + trimmed + "]"
  {
    OnePiece(h, format, f);
    JoinOne(Piece(h, format, f), DelimChar(format));
    EmptyBody(format);
  }

  lemma {:induction false} EmptyBody(format: Format)
    ensures "" + "\n" == "\n" && " : [" + "" + "]" == " : []"
  {
  }

  /** A frame of which function and file are known, with hooks that keep everything. */
  lemma {:induction false} WholeFrame(h: Hooks, f: StackFrame, called: string, in_: string)
    requires h.symbolize(f) == None && f.function_ == Some(called) && f.filename == Some(in_)
    requires forall s :: h.trimBellyFat(s) == s && h.trimArseFat(s) == |s| && !h.isBoring(s, -1)
    requires |"0x" + f.address + " " + called + " at " + in_ + ":" + f.line| <= 511
    ensures Rendered(h, Normal, 0, [f])
         == " : [" + ("0x" + f.address + " " + called + " at " + in_ + ":" + f.line) + "]"
    ensures Rendered(h, Linefeed, 0, [f]) == "0x" + f.address + " " + called + " at " + in_ + ":" + f.line + "\n"
  {
    UnnamedFrame(h, f, called, in_);
    OneFrame(h, Normal, f);
    OneFrame(h, Linefeed, f);
    TakeAll(Label(h, f));
  }

  /** For example. */
  lemma {:induction false} MainFrame(h: Hooks)
    requires forall f :: h.symbolize(f) == None
    requires forall s :: h.trimBellyFat(s) == s && h.trimArseFat(s) == |s| && !h.isBoring(s, -1)
    ensures Rendered(h, Normal, 0, [StackFrame("1040", "7", Some("main"), Some("a.c"))])
         == " : [0x1040 main at a.c:7]"
  {
    var f := StackFrame("1040", "7", Some("main"), Some("a.c"));
    MainText();
    WholeFrame(h, f, "main", "a.c");
  }

  lemma {:induction false} MainText()
    ensures "0x" + "1040" + " " + "main" + " at " + "a.c" + ":" + "7" == "0x1040 main at a.c:7"
    ensures " : [" + "0x1040 main at a.c:7" + "]" == " : [0x1040 main at a.c:7]"
  {
  }

  // ----- more frames -----

  /** Two frames, with any hooks: their pieces, with what separates them. */
  lemma {:induction false} TwoFrames(h: Hooks, format: Format, f: StackFrame, g: StackFrame)
    requires !h.isBoring(Label(h, f), -1) && !h.isBoring(Label(h, g), -1)
    ensures format.Linefeed? ==> Rendered(h, format, 0, [f, g]) == Label(h, f) + "\n" + Label(h, g) + "\n"
    ensures !format.Linefeed? ==>
      Rendered(h, format, 0, [f, g]) == " : [" + (Piece(h, format, f) + " |" + Piece(h, format, g)) + "]"
  {
    OnePiece(h, format, f);
    PiecesNext(h, format, [f], g);
    assert [f] + [g] == [f, g];
    JoinTwo(Piece(h, format, f), Piece(h, format, g), DelimChar(format));
  }

  lemma {:induction false} JoinTwo(a: string, b: string, delim: string)
    ensures Join([a] + [b], delim) == a + delim + b
  {
    JoinNext("", [a], delim, b);
    JoinOne(a, delim);
    EmptyConcat(a);
    EmptyConcat(Join([a] + [b], delim));
  }

  lemma {:induction false} PiecesConcat(h: Hooks, format: Format, a: seq<StackFrame>, b: seq<StackFrame>)
    ensures Pieces(h, format, a + b) == Pieces(h, format, a) + Pieces(h, format, b)
    decreases |b|
  {
    if b == [] {
      EmptyConcat(a);
      EmptyConcat(Pieces(h, format, a));
    } else {
      var init, last := Init(b), Last(b);
      var piece := if h.isBoring(Label(h, last), -1) then [] else [Piece(h, format, last)];
      InitLast(b);
      ConcatAssoc(a, init, [last]);
      PiecesConcat(h, format, a, init);
      PiecesNext(h, format, a + init, last);
      PiecesNext(h, format, init, last);
      ConcatAssoc(Pieces(h, format, a), Pieces(h, format, init), piece);
    }
  }

  /** The trace of a frame list is that of its parts, with the separator between them. */
  lemma {:induction false} JoinConcat(a: seq<string>, b: seq<string>, delim: string)
    requires a != [] && b != []
    ensures Join(a + b, delim) == Join(a, delim) + delim + Join(b, delim)
    decreases |b|
  {
    var init, last := Init(b), Last(b);
    InitLast(b);
    if init == [] {
      JoinLast(a, last, delim);
      JoinOne(last, delim);
    } else {
      ConcatAssoc(a, init, [last]);
      JoinConcat(a, init, delim);
      JoinLast(a + init, last, delim);
      JoinLast(init, last, delim);
      JoinRegroup(Join(a, delim), delim, Join(init, delim), last);
    }
  }

  lemma {:induction false} JoinLast(a: seq<string>, last: string, delim: string)
    requires a != []
    ensures Join(a + [last], delim) == Join(a, delim) + delim + last
  {
    Appended(a, last);
  }

  lemma {:induction false} JoinRegroup(a: string, delim: string, b: string, last: string)
    ensures a + delim + b + delim + last == a + delim + (b + delim + last)
  {
  }

  /** The first `offset` frames, no more and no fewer, are left out. */
  lemma {:induction false} OffsetDrops(h: Hooks, format: Format, offset: int, frames: seq<StackFrame>)
    ensures offset <= 0 ==> Rendered(h, format, offset, frames) == Rendered(h, format, 0, frames)
    ensures 0 <= offset <= |frames| ==> Rendered(h, format, offset, frames) == Rendered(h, format, 0, frames[offset..])
    ensures offset >= |frames| ==> Rendered(h, format, offset, frames) == if format.Linefeed? then "\n" else " : []"
  {
    EmptyBody(format);
    JoinOne("", DelimChar(format));
    if offset == |frames| {
      assert frames[offset..] == [];
    }
    if offset == 0 {
      assert frames[offset..] == frames;
    }
  }

  /** A boring frame leaves no mark, wherever it stands. */
  lemma {:induction false} BoringLeavesNoMark(h: Hooks, format: Format, a: seq<StackFrame>, f: StackFrame,
                                              b: seq<StackFrame>)
    requires h.isBoring(Label(h, f), -1)
    ensures Rendered(h, format, 0, a + [f] + b) == Rendered(h, format, 0, a + b)
  {
    PiecesNext(h, format, a, f);
    EmptyConcat(Pieces(h, format, a));
    PiecesConcat(h, format, a + [f], b);
    PiecesConcat(h, format, a, b);
  }

  /** Frames that are shown on both sides of a place have one separator there. */
  lemma {:induction false} PartsOfTrace(h: Hooks, a: seq<StackFrame>, b: seq<StackFrame>, left: string, right: string)
    requires Pieces(h, Normal, a) != [] && Pieces(h, Normal, b) != []
    requires Rendered(h, Normal, 0, a) == " : [" + left + "]" && Rendered(h, Normal, 0, b) == " : [" + right + "]"
    ensures Rendered(h, Normal, 0, a + b) == " : [" + (left + " |" + right) + "]"
  {
    PiecesConcat(h, Normal, a, b);
    JoinConcat(Pieces(h, Normal, a), Pieces(h, Normal, b), " |");
    InBrackets(Join(Pieces(h, Normal, a), " |"), left);
    InBrackets(Join(Pieces(h, Normal, b), " |"), right);
  }

  lemma {:induction false} InBrackets(a: string, b: string)
    requires " : [" + a + "]" == " : [" + b + "]"
    ensures a == b
  {
    assert a == (" : [" + a + "]")[4..4 + |a|];
    assert b == (" : [" + b + "]")[4..4 + |b|];
  }

  /** The names that the default filter leaves out. */
  lemma {:induction false} BoringNames(s: string)
    ensures TrimBoringFunctions(s, -1) <==>
      || s == "0x0"
      || (|s| >= 12 && s[..12] == "test_realloc")
      || (|s| >= 11 && s[..11] == "test_calloc")
      || (|s| >= 9 && s[..9] == "test_free")
      || (|s| >= 22 && s[..22] == "libmulle-testallocator")
      || (|s| >= 10 && s[..10] == "mulle_objc")
      || (|s| >= 11 && s[..11] == "_mulle_objc")
  {
    PrefixIff("test_realloc", s);
    PrefixIff("test_calloc", s);
    PrefixIff("test_free", s);
    PrefixIff("libmulle-testallocator", s);
    PrefixIff("mulle_objc", s);
    PrefixIff("_mulle_objc", s);
    if |s| == 3 {
      PrefixIff("0x0", s);
      assert s[..3] == s;
    }
  }

  lemma {:induction false} PrefixIff(p: string, s: string)
    ensures p <= s <==> |s| >= |p| && s[..|p|] == p
  {
  }
}
