/**
  How the execinfo backend cuts a line of backtrace_symbols, which reads
  "path(+0xoffset) [0xaddress]", down to a file name and an offset. A C string
  is its characters up to the NUL, and a pointer into it is a position.
 */
module Trimming {

  datatype Option<T> = None | Some(value: T)

  predicate At(s: string, pattern: string, k: nat)
  {
    k + |pattern| <= |s| && s[k..k + |pattern|] == pattern
  }

  /** strstr: the first place where `pattern` occurs. */
  function Strstr(s: string, pattern: string): (r: Option<nat>)
    ensures r.None? ==> forall k: nat :: !At(s, pattern, k)
    ensures r.Some? ==> At(s, pattern, r.value) && forall k: nat :: k < r.value ==> !At(s, pattern, k)
  {
    StrstrFrom(s, pattern, 0)
  }

  function StrstrFrom(s: string, pattern: string, from: nat): (r: Option<nat>)
    requires forall k: nat :: k < from ==> !At(s, pattern, k)
    ensures r.None? ==> forall k: nat :: !At(s, pattern, k)
    ensures r.Some? ==> At(s, pattern, r.value) && forall k: nat :: k < r.value ==> !At(s, pattern, k)
    decreases |s| + 1 - from
  {
    if from + |pattern| > |s| then None
    else if At(s, pattern, from) then Some(from)
    else StrstrFrom(s, pattern, from + 1)
  }

  /** strchr from a position on: the first place there where `c` occurs. */
  function Strchr(s: string, from: nat, c: char): (r: Option<nat>)
    requires from <= |s|
    ensures r.None? ==> c !in s[from..]
    ensures r.Some? ==> from <= r.value < |s| && s[r.value] == c && c !in s[from..r.value]
    decreases |s| - from
  {
    if from == |s| then None
    else if s[from] == c then Some(from)
    else
      var r := Strchr(s, from + 1, c);
      assert s[from..] == [s[from]] + s[from + 1..];
      assert r.Some? ==> s[from..r.value] == [s[from]] + s[from + 1..r.value];
      r
  }

  /** Where a component of a path can begin: at the start, or right after a '/'. */
  predicate Begins(s: string, k: nat)
  {
    k == 0 || (k <= |s| && s[k - 1] == '/')
  }

  /**
    The position that _trim_belly_fat returns for a line with "(+0x" at `hex`:
    the first beginning of a component at or after `hex`, or else the last of all.
   */
  predicate Cut(s: string, hex: nat, start: nat)
  {
    && Begins(s, start)
    && start <= |s|
    && (start < hex ==> '/' !in s[start..])
    && forall k: nat :: hex <= k < start ==> !Begins(s, k)
  }

  method TrimBellyFat(s: string) returns (start: nat)
    ensures start <= |s|
    ensures Strstr(s, "(+0x").Some? ==> Cut(s, Strstr(s, "(+0x").value, start)
    ensures Strstr(s, "(+0x").None? && '(' in s
      ==> start < |s| && s[start] == '(' && '(' !in s[..start]
    ensures Strstr(s, "(+0x").None? && '(' !in s ==> start == 0
  {
    var hex := Strstr(s, "(+0x");
    if hex.Some? {
      var memo, at := 0, 0;
      while at < hex.value
        invariant memo == at <= |s| && Begins(s, at)
        invariant forall k: nat :: hex.value <= k < at ==> !Begins(s, k)
        decreases |s| - at
      {
        var slash := Strchr(s, at, '/');
        if slash.None? {
          return memo;
        }
        forall k: nat | at < k <= slash.value
          ensures !Begins(s, k)
        {
          assert s[k - 1] == s[at..slash.value][k - 1 - at];
        }
        at := slash.value + 1;
        memo := at;
      }
      return memo;
    }
    var paren := Strchr(s, 0, '(');
    assert s[0..] == s;
    return if paren.Some? then paren.value else 0;
  }

  /** _trim_arse_fat: how many characters to keep, up to the address in brackets. */
  function TrimArseFat(s: string): (size: nat)
    ensures size <= |s|
    ensures forall k: nat :: k < size ==> !At(s, " [0x", k)
    ensures size < |s| ==> At(s, " [0x", size)
  {
    match Strstr(s, " [0x")
    case Some(k) => k
    case None => |s|
  }

  /** Where the file name begins: after the last '/' that precedes `hex`. */
  function FileNameStart(s: string, hex: nat): (k: nat)
    requires hex <= |s|
    ensures k <= hex && Begins(s, k)
    ensures forall i: nat :: k < i <= hex ==> !Begins(s, i)
  {
    if Begins(s, hex) then hex else FileNameStart(s, hex - 1)
  }

  lemma {:induction false} SlashBegins(s: string, from: nat)
    requires from <= |s|
    ensures '/' in s[from..] <==> exists k: nat :: from < k <= |s| && Begins(s, k)
  {
    if '/' in s[from..] {
      var i :| 0 <= i < |s| - from && s[from..][i] == '/';
      assert Begins(s, from + i + 1);
    }
    if exists k: nat :: from < k <= |s| && Begins(s, k) {
      var k: nat :| from < k <= |s| && Begins(s, k);
      assert s[from..][k - 1 - from] == '/';
    }
  }

  /** Where "(+0x" first occurs in a line `path` + "(+0x...": in the path, or else right after it. */
  function HexIn(path: string): (k: nat)
    ensures k <= |path|
  {
    match Strstr(path, "(+0x")
    case Some(k) => k
    case None => |path|
  }

  lemma {:induction false} AtChar(s: string, pattern: string, k: nat, j: nat)
    requires j < |pattern|
    ensures At(s, pattern, k) ==> s[k + j] == pattern[j]
  {
    if At(s, pattern, k) {
      assert s[k + j] == s[k..k + |pattern|][j];
    }
  }

  /** strstr, character by character. */
  lemma {:induction false} StrstrSpelledOut(s: string, pattern: string, k: nat)
    ensures At(s, pattern, k) <==> k + |pattern| <= |s| && forall j :: 0 <= j < |pattern| ==> pattern[j] == s[k + j]
    ensures Strstr(s, pattern) == Some(k) <==>
      At(s, pattern, k) && forall i: nat :: i < k ==> !At(s, pattern, i)
  {
    if At(s, pattern, k) {
      forall j | 0 <= j < |pattern|
        ensures pattern[j] == s[k + j]
      {
        AtChar(s, pattern, k, j);
      }
    }
    if k + |pattern| <= |s| && forall j :: 0 <= j < |pattern| ==> pattern[j] == s[k + j] {
      assert s[k..k + |pattern|] == pattern;
    }
  }

  /** No occurrence of "(+0x" reaches from the path into what follows it. */
  lemma {:induction false} NoOverlap(path: string, tail: string, k: nat)
    requires "(" <= tail && k < |path|
    ensures At(path + tail, "(+0x", k) <==> At(path, "(+0x", k)
  {
    var s := path + tail;
    if k + 4 <= |path| {
      assert s[k..k + 4] == path[k..k + 4];
    } else {
      AtChar(s, "(+0x", k, |path| - k);
    }
  }

  lemma {:induction false} FirstHex(path: string, tail: string)
    requires "(" <= tail
    requires "(+0x" <= tail || Strstr(path, "(+0x").Some?
    ensures Strstr(path + tail, "(+0x") == Some(HexIn(path))
  {
    var s, hex := path + tail, HexIn(path);
    if hex < |path| {
      NoOverlap(path, tail, hex);
    } else {
      assert s[|path|..|path| + 4] == tail[..4];
    }
    assert At(s, "(+0x", hex);
    forall k: nat | k < hex
      ensures !At(s, "(+0x", k)
    {
      NoOverlap(path, tail, k);
    }
  }

  /** Without a '/' in its tail, a line has the components of its path. */
  lemma {:induction false} PathBegins(path: string, tail: string, k: nat)
    requires '/' !in tail && k <= |path + tail|
    ensures Begins(path + tail, k) <==> k <= |path| && Begins(path, k)
  {
    if k > |path| {
      assert (path + tail)[k - 1] == tail[k - 1 - |path|];
    }
  }

  /** The directories of `path` that begin at or after its first "(+0x": the cut stops at the first of them. */
  predicate KeepsDirectory(path: string)
  {
    exists k: nat :: HexIn(path) <= k < FileNameStart(path, |path|) && Begins(path, k)
  }

  /**
    Of a line of backtrace_symbols the cut never loses any of the file name. It
    removes the whole leading path exactly when no directory of the path begins
    at or after the first "(+0x", which holds of every path without "(+0x".
   */
  lemma {:induction false} CutRemovesPathIff(path: string, tail: string, start: nat)
    requires '/' !in tail
    requires Cut(path + tail, HexIn(path), start)
    ensures start <= FileNameStart(path, |path|)
    ensures start == FileNameStart(path, |path|) <==> !KeepsDirectory(path)
    ensures Strstr(path, "(+0x") == None ==> start == FileNameStart(path, |path|)
  {
    var s, hex, name := path + tail, HexIn(path), FileNameStart(path, |path|);
    PathBegins(path, tail, start);
    PathBegins(path, tail, name);
    if start < hex {
      SlashBegins(s, start);
      assert name <= start;
    } else {
      assert start > name ==> name < hex;
      forall k: nat | hex <= k < start
        ensures !Begins(path, k)
      {
        PathBegins(path, tail, k);
      }
    }
  }

  lemma {:induction false} CutIsUnique(s: string, hex: nat, a: nat, b: nat)
    requires Cut(s, hex, a) && Cut(s, hex, b)
    ensures a == b
  {
    SlashBegins(s, a);
    SlashBegins(s, b);
  }

  /** Where " [0x" first occurs, if the part before it has none. */
  lemma {:induction false} ArseFatOf(kept: string, tail: string)
    requires " [0x" <= tail
    requires forall k: nat :: !At(kept, " [0x", k)
    ensures (kept + tail)[..TrimArseFat(kept + tail)] == kept
  {
    var s := kept + tail;
    assert s[|kept|..|kept| + 4] == tail[..4];
    assert At(s, " [0x", |kept|);
    forall k: nat | k < |kept|
      ensures !At(s, " [0x", k)
    {
      if k + 4 <= |kept| {
        assert s[k..k + 4] == kept[k..k + 4];
        assert !At(kept, " [0x", k);
      } else {
        AtChar(s, " [0x", k, |kept| - k);
      }
    }
  }

  lemma {:induction false} NoneInSuffix(s: string, pattern: string, from: nat)
    requires from <= |s|
    requires forall k: nat :: !At(s, pattern, k)
    ensures forall k: nat :: !At(s[from..], pattern, k)
  {
    forall k: nat
      ensures !At(s[from..], pattern, k)
    {
      if At(s[from..], pattern, k) {
        assert s[from + k..from + k + |pattern|] == s[from..][k..k + |pattern|];
        assert At(s, pattern, from + k);
      }
    }
  }

  function Part(symbol: string, offset: string): string
  {
    "(" + symbol + "+0x" + offset + ")"
  }

  /** A line as backtrace_symbols writes it. */
  function Line(path: string, symbol: string, offset: string, address: string): string
  {
    path + Part(symbol, offset) + (" [0x" + address + "]")
  }

  /** The second cut, of what the first one leaves. */
  function Kept(rest: string): string
  {
    rest[..TrimArseFat(rest)]
  }

  lemma {:induction false} BothCuts(path: string, part: string, tail: string, start: nat)
    requires " [0x" <= tail && start <= |path|
    requires forall k: nat :: !At(path + part, " [0x", k)
    ensures Kept((path + part + tail)[start..]) == path[start..] + part
  {
    NoneInSuffix(path + part, " [0x", start);
    assert (path + part)[start..] == path[start..] + part;
    assert (path + part + tail)[start..] == (path[start..] + part) + tail;
    ArseFatOf(path[start..] + part, tail);
  }

  lemma {:induction false} LineTail(path: string, offset: string, address: string)
    ensures var tail := Part("", offset) + (" [0x" + address + "]");
      && Line(path, "", offset, address) == path + tail
      && "(" <= tail && "(+0x" <= tail
      && ('/' !in offset && '/' !in address ==> '/' !in tail)
  {
    assert Part("", offset)[..4] == "(+0x";
  }

  /**
    Of a line "path(+0xoffset) [0xaddress]" the two cuts together keep the offset
    and the end of the path, with all of the file name; and nothing before the
    file name exactly when no directory begins at or after the first "(+0x".
   */
  lemma {:induction false} DocumentedLine(path: string, offset: string, address: string, start: nat)
    requires '/' !in offset && '/' !in address
    requires forall k: nat :: !At(path + Part("", offset), " [0x", k)
    requires Cut(Line(path, "", offset, address), HexIn(path), start)
    ensures Strstr(Line(path, "", offset, address), "(+0x") == Some(HexIn(path))
    ensures start <= FileNameStart(path, |path|)
    ensures start == FileNameStart(path, |path|) <==> !KeepsDirectory(path)
    ensures Kept(Line(path, "", offset, address)[start..]) == path[start..] + Part("", offset)
  {
    var part, tail := Part("", offset), " [0x" + address + "]";
    LineTail(path, offset, address);
    FirstHex(path, part + tail);
    CutRemovesPathIff(path, part + tail, start);
    BothCuts(path, part, tail, start);
  }

  lemma {:induction false} NotBefore(s: string, end: nat, c: char)
    requires end <= |s| && c !in s[..end]
    ensures forall k :: 0 <= k < end ==> s[k] != c
  {
    forall k | 0 <= k < end
      ensures s[k] != c
    {
      assert s[..end][k] == s[k];
    }
  }

  /**
    Of a line "path(symbol+0xoffset) [0xaddress]" the two cuts together keep the
    symbol and its offset; and nothing of the path exactly when no '(' is in it.
   */
  lemma {:induction false} DocumentedSymbolLine(path: string, symbol: string, offset: string, address: string,
                                                start: nat)
    requires forall k: nat :: !At(path + Part(symbol, offset), " [0x", k)
    requires Strstr(Line(path, symbol, offset, address), "(+0x").None?
    requires var s := Line(path, symbol, offset, address);
      start < |s| && s[start] == '(' && '(' !in s[..start]
    ensures start <= |path|
    ensures start == |path| <==> '(' !in path
    ensures Kept(Line(path, symbol, offset, address)[start..]) == path[start..] + Part(symbol, offset)
  {
    var part, tail := Part(symbol, offset), " [0x" + address + "]";
    var s := Line(path, symbol, offset, address);
    assert s[|path|] == '(';
    NotBefore(s, start, '(');
    assert s[..start] == path[..start];
    NotBefore(path, start, '(');
    BothCuts(path, part, tail, start);
  }

  const NESTED := "/x(+0x1)/y/b.so"

  lemma {:induction false} NestedComponents(k: nat)
    requires k <= |NESTED|
    ensures Begins(NESTED, k) <==> k == 0 || k == 1 || k == 9 || k == 11
  {
    assert NESTED[0] == '/' && NESTED[8] == '/' && NESTED[10] == '/';
  }

  lemma {:induction false} NestedHex()
    ensures HexIn(NESTED) == 2
  {
    assert NESTED[2..6] == "(+0x";
    assert At(NESTED, "(+0x", 2);
    AtChar(NESTED, "(+0x", 0, 0);
    AtChar(NESTED, "(+0x", 1, 0);
  }

  lemma {:induction false} NestedName()
    ensures FileNameStart(NESTED, |NESTED|) == 11
  {
    NestedComponents(FileNameStart(NESTED, |NESTED|));
    NestedComponents(11);
  }

  lemma {:induction false} NestedCut(tail: string)
    requires '/' !in tail
    ensures Cut(NESTED + tail, 2, 9)
  {
    NestedComponents(9);
    PathBegins(NESTED, tail, 9);
    forall k: nat | 2 <= k < 9
      ensures !Begins(NESTED + tail, k)
    {
      NestedComponents(k);
      PathBegins(NESTED, tail, k);
    }
  }

  /** A line of which the cut leaves a directory: only "/x(+0x1)/" is removed. */
  lemma {:induction false} CutLeavesDirectory(offset: string, address: string, start: nat)
    requires '/' !in offset && '/' !in address
    requires var s := Line(NESTED, "", offset, address);
      Strstr(s, "(+0x").Some? && Cut(s, Strstr(s, "(+0x").value, start)
    ensures start == 9 && NESTED[start..] == "y/b.so"
    ensures FileNameStart(NESTED, |NESTED|) == 11 && NESTED[11..] == "b.so"
  {
    var tail := Part("", offset) + (" [0x" + address + "]");
    LineTail(NESTED, offset, address);
    NestedHex();
    FirstHex(NESTED, tail);
    NestedCut(tail);
    CutIsUnique(NESTED + tail, 2, start, 9);
    NestedName();
  }

  // ----- the two documented forms, in full -----

  const LIBRARY := "/lib/l.so"

  lemma {:induction false} LibraryName()
    ensures FileNameStart(LIBRARY, |LIBRARY|) == 5 && HexIn(LIBRARY) == |LIBRARY| == 9
    ensures '(' !in LIBRARY && ' ' !in LIBRARY
  {
    assert LIBRARY[4] == '/';
    assert Begins(LIBRARY, 5);
    assert !Begins(LIBRARY, 6) && !Begins(LIBRARY, 7) && !Begins(LIBRARY, 8) && !Begins(LIBRARY, 9);
    var name := FileNameStart(LIBRARY, |LIBRARY|);
    assert name == 5;
    if HexIn(LIBRARY) < |LIBRARY| {
      AtChar(LIBRARY, "(+0x", HexIn(LIBRARY), 0);
    }
  }

  lemma {:induction false} LibraryLines()
    ensures Line(LIBRARY, "", "1c", "7f") == "/lib/l.so(+0x1c) [0x7f]"
    ensures Line(LIBRARY, "go", "1c", "7f") == "/lib/l.so(go+0x1c) [0x7f]"
  {
  }

  lemma {:induction false} NoSpaceNoAddress(s: string)
    requires ' ' !in s
    ensures forall k: nat :: !At(s, " [0x", k)
  {
    forall k: nat
      ensures !At(s, " [0x", k)
    {
      AtChar(s, " [0x", k, 0);
    }
  }

  /** "/lib/l.so(+0x1c) [0x7f]" becomes "l.so(+0x1c)". */
  lemma {:induction false} OffsetLineIsCut(start: nat)
    requires Cut(Line(LIBRARY, "", "1c", "7f"), 9, start)
    ensures Strstr(Line(LIBRARY, "", "1c", "7f"), "(+0x") == Some(9)
    ensures start <= |Line(LIBRARY, "", "1c", "7f")|
    ensures Kept(Line(LIBRARY, "", "1c", "7f")[start..]) == "l.so(+0x1c)"
  {
    LibraryName();
    LibraryHasNoDirectory();
    NoSpaceNoAddress(LIBRARY + Part("", "1c"));
    DocumentedLine(LIBRARY, "1c", "7f", start);
    LibraryTexts();
  }

  lemma {:induction false} LibraryHasNoDirectory()
    ensures !KeepsDirectory(LIBRARY)
  {
    LibraryName();
  }

  lemma {:induction false} LibraryTexts()
    ensures LIBRARY[5..] + Part("", "1c") == "l.so(+0x1c)"
    ensures LIBRARY[9..] + Part("go", "1c") == "(go+0x1c)"
  {
  }

  /** "/lib/l.so(go+0x1c) [0x7f]" becomes "(go+0x1c)". */
  lemma {:induction false} SymbolLineIsCut(start: nat)
    requires var s := Line(LIBRARY, "go", "1c", "7f");
      start < |s| && s[start] == '(' && '(' !in s[..start]
    ensures Strstr(Line(LIBRARY, "go", "1c", "7f"), "(+0x") == None
    ensures Kept(Line(LIBRARY, "go", "1c", "7f")[start..]) == "(go+0x1c)"
  {
    LibraryName();
    NoHexInSymbolLine();
    NoSpaceNoAddress(LIBRARY + Part("go", "1c"));
    DocumentedSymbolLine(LIBRARY, "go", "1c", "7f", start);
    LibraryTexts();
  }

  lemma {:induction false} NoHexInSymbolLine()
    ensures Strstr(Line(LIBRARY, "go", "1c", "7f"), "(+0x") == None
  {
    var s := Line(LIBRARY, "go", "1c", "7f");
    LibraryLines();
    OneParenthesis(s);
    forall k: nat
      ensures !At(s, "(+0x", k)
    {
      AtChar(s, "(+0x", k, 0);
      AtChar(s, "(+0x", k, 1);
    }
  }

  lemma {:induction false} OneParenthesis(s: string)
    requires s == "/lib/l.so(go+0x1c) [0x7f]"
    ensures |s| == 25 && s[10] == 'g'
    ensures forall k :: 0 <= k < |s| && s[k] == '(' ==> k == 9
  {
  }
}
