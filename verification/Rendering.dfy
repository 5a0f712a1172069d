/**
  The libbacktrace backend: one call of a stateful callback per stack frame
  writes a stack trace. Proved equal to dropping, filtering, trimming and
  joining the frames.
 */
module Rendering {
  import opened Sequences
  import opened Trimming

  /**
    A stack frame. `address` and `line` are the digits that %lx and %d print
    for its address and its line number.
   */
  datatype StackFrame = StackFrame(address: string, line: string, function_: Option<string>, filename: Option<string>)

  /** The replaceable parts of a trace; `size` is -1 where the callee is to measure the string. */
  datatype Hooks = Hooks(symbolize: StackFrame -> Option<string>,
                         trimBellyFat: string -> string,
                         trimArseFat: string -> int,
                         isBoring: (string, int) -> bool)

  datatype Format = Normal | Trimmed | Linefeed

  function OrElse(s: Option<string>, default: string): string
  {
    match s
    case Some(v) => v
    case None => default
  }

  /** snprintf into a buffer of 512: at most 511 characters. */
  function Truncated(s: string): string
  {
    if |s| <= 511 then s else s[..511]
  }

  function Buffer(f: StackFrame): string
  {
    if f.function_.Some? || f.filename.Some? then
      Truncated("0x" + f.address + " " + OrElse(f.function_, "(unknown function)")
                + " at " + OrElse(f.filename, "(unknown file)") + ":" + f.line)
    else Truncated("0x" + f.address + " (no symbol information)")
  }

  /** What a frame is called: what the symbolizer says, or else the formatted buffer. */
  function Label(h: Hooks, f: StackFrame): string
  {
    OrElse(h.symbolize(f), Buffer(f))
  }

  /** %.*s: at most `size` characters, or all of them when `size` is negative. */
  function Precision(size: int, s: string): string
  {
    if 0 <= size <= |s| then s[..size] else s
  }

  function Piece(h: Hooks, format: Format, f: StackFrame): string
  {
    if format.Linefeed? then Label(h, f)
    else
      var s := h.trimBellyFat(Label(h, f));
      Precision(h.trimArseFat(s), s)
  }

  /** The pieces of the frames that are not boring. */
  function Pieces(h: Hooks, format: Format, fs: seq<StackFrame>): seq<string>
  {
    if fs == [] then []
    else Pieces(h, format, fs[..|fs| - 1])
         + (if h.isBoring(Label(h, fs[|fs| - 1]), -1) then [] else [Piece(h, format, fs[|fs| - 1])])
  }

  function Join(pieces: seq<string>, delim: string): string
  {
    if pieces == [] then ""
    else if |pieces| == 1 then pieces[0]
    else Join(pieces[..|pieces| - 1], delim) + delim + pieces[|pieces| - 1]
  }

  function Dropped(fs: seq<StackFrame>, offset: int): seq<StackFrame>
  {
    if offset <= 0 then fs else if offset >= |fs| then [] else fs[offset..]
  }

  function DelimChar(format: Format): string
  {
    if format.Linefeed? then "\n" else " |"
  }

  /** What a trace must look like. */
  function Rendered(h: Hooks, format: Format, offset: int, fs: seq<StackFrame>): string
  {
    var body := Join(Pieces(h, format, Dropped(fs, offset)), DelimChar(format));
    if format.Linefeed? then body + "\n" else " : [" + body + "]"
  }

  /** The fields of a trace that its callback updates, `output` being what has been written to the file. */
  datatype Fields = Fields(delim: string, frameCount: int, framesProcessed: int, output: string)

  /**
    The fields after the frames `seen`, of a trace that began with `before`
    written: nothing is written for dropped and boring frames, and the delimiter
    is empty until the first piece.
   */
  function FieldsAfter(h: Hooks, format: Format, offset: int, seen: seq<StackFrame>, before: string): Fields
  {
    var pieces := Pieces(h, format, Dropped(seen, offset));
    Fields(if pieces == [] then "" else DelimChar(format), |pieces|, |seen|,
           before + Join(pieces, DelimChar(format)))
  }

  class StacktraceContext {
    const hooks: Hooks
    const format: Format
    const delimchar: string
    const offset: int
    var delim: string
    var frameCount: int
    var framesProcessed: int
    var output: string

    constructor (h: Hooks, format: Format, offset: int, output: string)
      ensures hooks == h && this.format == format && this.offset == offset && delimchar == DelimChar(format)
      ensures State() == Fields("", 0, 0, output)
    {
      hooks, this.format, delimchar, this.offset := h, format, DelimChar(format), offset;
      delim, frameCount, framesProcessed, this.output := "", 0, 0, output;
    }

    ghost function State(): Fields
      reads this
    {
      Fields(delim, frameCount, framesProcessed, output)
    }

    /** The fields that this trace must have after the frames `seen`. */
    ghost function StateAfter(seen: seq<StackFrame>, before: string): Fields
    {
      FieldsAfter(hooks, format, offset, seen, before)
    }

    /** The callback of the normal and the trimmed format. */
    method NormalCallback(f: StackFrame, ghost seen: seq<StackFrame>, ghost before: string)
      requires !format.Linefeed? && delimchar == DelimChar(format)
      requires State() == StateAfter(seen, before)
      modifies this
      ensures State() == StateAfter(seen + [f], before)
    {
      if framesProcessed < offset {
        SkipFrame(hooks, format, offset, seen, before, f);
        framesProcessed := framesProcessed + 1;
        return;
      }
      var text := Label(hooks, f);
      if hooks.isBoring(text, -1) {
        SkipFrame(hooks, format, offset, seen, before, f);
        framesProcessed := framesProcessed + 1;
        return;
      }
      ShowFrame(hooks, format, offset, seen, before, f);
      var s := hooks.trimBellyFat(text);
      var size := hooks.trimArseFat(s);
      output := output + delim + Precision(size, s);
      delim := delimchar;
      frameCount := frameCount + 1;
      framesProcessed := framesProcessed + 1;
    }

    /** The callback of the linefeed format: it does not trim. */
    method LinefeedCallback(f: StackFrame, ghost seen: seq<StackFrame>, ghost before: string)
      requires format.Linefeed? && delimchar == DelimChar(format)
      requires State() == StateAfter(seen, before)
      modifies this
      ensures State() == StateAfter(seen + [f], before)
    {
      if framesProcessed < offset {
        SkipFrame(hooks, format, offset, seen, before, f);
        framesProcessed := framesProcessed + 1;
        return;
      }
      var text := Label(hooks, f);
      if hooks.isBoring(text, -1) {
        SkipFrame(hooks, format, offset, seen, before, f);
        framesProcessed := framesProcessed + 1;
        return;
      }
      ShowFrame(hooks, format, offset, seen, before, f);
      output := output + delim + text;
      delim := delimchar;
      frameCount := frameCount + 1;
      framesProcessed := framesProcessed + 1;
    }
  }

  /** A frame that is dropped or boring only shows in the number of frames seen. */
  lemma {:induction false} SkipFrame(h: Hooks, format: Format, offset: int, seen: seq<StackFrame>, before: string,
                                     f: StackFrame)
    requires |seen| < offset || h.isBoring(Label(h, f), -1)
    ensures FieldsAfter(h, format, offset, seen + [f], before)
         == FieldsAfter(h, format, offset, seen, before).(framesProcessed := |seen| + 1)
  {
    DroppedNext(seen, f, offset);
    PiecesNext(h, format, Dropped(seen, offset), f);
    assert Pieces(h, format, Dropped(seen + [f], offset)) == Pieces(h, format, Dropped(seen, offset));
  }

  /** Any other frame adds one piece, with a delimiter exactly if something was shown before. */
  lemma {:induction false} ShowFrame(h: Hooks, format: Format, offset: int, seen: seq<StackFrame>, before: string,
                                     f: StackFrame)
    requires |seen| >= offset && !h.isBoring(Label(h, f), -1)
    ensures var was := FieldsAfter(h, format, offset, seen, before);
      FieldsAfter(h, format, offset, seen + [f], before)
        == Fields(DelimChar(format), was.frameCount + 1, |seen| + 1, was.output + was.delim + Piece(h, format, f))
  {
    DroppedNext(seen, f, offset);
    PiecesNext(h, format, Dropped(seen, offset), f);
    JoinNext(before, Pieces(h, format, Dropped(seen, offset)), DelimChar(format), Piece(h, format, f));
  }

  lemma {:induction false} DroppedNext(fs: seq<StackFrame>, f: StackFrame, offset: int)
    ensures |fs| < offset ==> Dropped(fs + [f], offset) == Dropped(fs, offset)
    ensures |fs| >= offset ==> Dropped(fs + [f], offset) == Dropped(fs, offset) + [f]
  {
  }

  lemma {:induction false} PiecesNext(h: Hooks, format: Format, fs: seq<StackFrame>, f: StackFrame)
    ensures Pieces(h, format, fs + [f])
         == Pieces(h, format, fs) + (if h.isBoring(Label(h, f), -1) then [] else [Piece(h, format, f)])
  {
    assert (fs + [f])[..|fs|] == fs;
  }

  lemma {:induction false} JoinNext(before: string, pieces: seq<string>, delim: string, piece: string)
    ensures before + Join(pieces + [piece], delim)
         == before + Join(pieces, delim) + (if pieces == [] then "" else delim) + piece
  {
    assert (pieces + [piece])[..|pieces|] == pieces;
  }

  /** backtrace_full: one call of the format's callback per frame, in order. */
  method BacktraceFull(ctx: StacktraceContext, frames: seq<StackFrame>, ghost before: string)
    requires ctx.delimchar == DelimChar(ctx.format)
    requires ctx.State() == ctx.StateAfter([], before)
    modifies ctx
    ensures ctx.State() == ctx.StateAfter(frames, before)
  {
    for i := 0 to |frames|
      invariant ctx.State() == ctx.StateAfter(frames[..i], before)
    {
      if ctx.format.Linefeed? {
        ctx.LinefeedCallback(frames[i], frames[..i], before);
      } else {
        ctx.NormalCallback(frames[i], frames[..i], before);
      }
      TakeNext(frames, i);
    }
    TakeAll(frames);
  }

  lemma {:induction false} RenderedAtEnd(h: Hooks, format: Format, offset: int, frames: seq<StackFrame>, file: string,
                      output: string, start: string)
    requires output == start + Join(Pieces(h, format, Dropped(frames, offset)), DelimChar(format))
    requires start == if format.Linefeed? then file else file + " : ["
    ensures output + (if format.Linefeed? then "\n" else "]") == file + Rendered(h, format, offset, frames)
  {
    var body := Join(Pieces(h, format, Dropped(frames, offset)), DelimChar(format));
    if format.Linefeed? {
      ConcatAssoc(file, body, "\n");
    } else {
      ConcatAssoc(file, " : [", body);
      ConcatAssoc(file, " : [" + body, "]");
    }
  }

  /** _mulle_stacktrace: the whole trace, written after what is already in the file. */
  method Stacktrace(h: Hooks, format: Format, offset: int, frames: seq<StackFrame>, file: string)
    returns (output: string)
    ensures output == file + Rendered(h, format, offset, frames)
  {
    var start := file;
    if !format.Linefeed? {
      start := start + " : [";
    }
    var ctx := new StacktraceContext(h, format, offset, start);
    assert Dropped([], offset) == [] && start + Join([], DelimChar(format)) == start;
    BacktraceFull(ctx, frames, start);
    RenderedAtEnd(h, format, offset, frames, file, ctx.output, start);
    output := ctx.output + (if format.Linefeed? then "\n" else "]");
  }

  // ----- the default hooks -----

  /** The default is_boring. */
  predicate TrimBoringFunctions(s: string, size: int)
  {
    var size := if size == -1 then |s| else size;
    || (size == 3 && "0x0" <= s)
    || "test_realloc" <= s
    || "test_calloc" <= s
    || "test_free" <= s
    || "libmulle-testallocator" <= s
    || "mulle_objc" <= s
    || "_mulle_objc" <= s
  }

  /** The formatted buffer starts with the address, which no prefix that the default filter knows does. */
  lemma {:induction false} BufferIsNotBoring(f: StackFrame)
    requires f.address != []
    ensures !TrimBoringFunctions(Buffer(f), -1)
  {
    var s := Buffer(f);
    assert |s| > 3 && s[0] == '0';
  }

  /**
    The default filter looks at what the symbolizer says, and at nothing else: a
    frame is left out exactly when the symbolizer names it and that name is boring.
   */
  lemma {:induction false} DefaultFilterIff(h: Hooks, f: StackFrame)
    requires f.address != []
    ensures TrimBoringFunctions(Label(h, f), -1)
        <==> h.symbolize(f).Some? && TrimBoringFunctions(h.symbolize(f).value, -1)
  {
    BufferIsNotBoring(f);
  }

  /** A frame of the test allocator that a trace shows, as the default symbolizer names no frame. */
  lemma {:induction false} TestAllocatorIsShown(h: Hooks, format: Format)
    requires h.isBoring == TrimBoringFunctions
    requires forall f :: h.symbolize(f) == None
    ensures var f := StackFrame("1040", "7", Some("test_calloc_or_raise"), None);
      && TrimBoringFunctions(f.function_.value, -1)
      && Pieces(h, format, [f]) == [Piece(h, format, f)]
  {
    var f := StackFrame("1040", "7", Some("test_calloc_or_raise"), None);
    assert "test_calloc_or_raise"[..11] == "test_calloc";
    DefaultFilterIff(h, f);
    PiecesNext(h, format, [], f);
    assert [] + [f] == [f];
  }

  /** A trace with the default filter shows every frame exactly when the symbolizer finds no boring one. */
  lemma {:induction false} DefaultShowsEveryFrameIff(h: Hooks, format: Format, fs: seq<StackFrame>)
    requires h.isBoring == TrimBoringFunctions
    requires forall f :: f in fs ==> f.address != []
    ensures |Pieces(h, format, fs)| <= |fs|
    ensures |Pieces(h, format, fs)| == |fs|
        <==> forall f :: f in fs ==> !(h.symbolize(f).Some? && TrimBoringFunctions(h.symbolize(f).value, -1))
  {
    if fs != [] {
      var rest, last := fs[..|fs| - 1], fs[|fs| - 1];
      assert fs == rest + [last];
      DefaultShowsEveryFrameIff(h, format, rest);
      DefaultFilterIff(h, last);
    }
  }
}
