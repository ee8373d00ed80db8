/**
 * The operating-system state the file tools act on: a map from path to the
 * text Python reads from it (after universal-newline translation) and a set
 * of directories.  `open` and `os.makedirs(..., exist_ok=True)` are modelled
 * with the CPython error texts for the cases listed.
 */
module FileSystem {
  import opened Text
  import opened Paths

  datatype Fs = Fs(files: map<string, string>, dirs: set<string>)

  /** What `open(p, 'r')` followed by `read()` yields. */
  datatype ReadOutcome = Content(text: string) | NotFound | IsADirectory | NotADirectory

  /** Some proper ancestor of `p` is a regular file, so resolving `p` meets a non-directory. */
  predicate UnderFile(fs: Fs, p: string) {
    exists k :: 0 <= k < |Ancestors(p)| && Ancestors(p)[k] in fs.files
  }

  function Open(fs: Fs, p: string): (r: ReadOutcome)
    ensures r.Content? <==> p in fs.files
    ensures r.Content? ==> r.text == fs.files[p]
    ensures r.IsADirectory? <==> p !in fs.files && p in fs.dirs
    ensures r.NotADirectory? <==> p !in fs.files && p !in fs.dirs && UnderFile(fs, p)
    ensures r.NotFound? <==> p !in fs.files && p !in fs.dirs && !UnderFile(fs, p)
  {
    if p in fs.files then Content(fs.files[p])
    else if p in fs.dirs then IsADirectory
    else if UnderFile(fs, p) then NotADirectory
    else NotFound
  }

  /** The quote `repr` encloses `p` in: a double quote when `p` holds a single quote and no double quote. */
  function QuoteFor(p: string): char {
    if '\'' in p && '"' !in p then '"' else '\''
  }

  /** A hexadecimal digit, in lower case as `repr` writes it. */
  function HexDigit(d: nat): (c: char)
    requires d < 16
    ensures HexValue(c) == d
  {
    if d < 10 then (48 + d) as char else (87 + d) as char
  }

  /** The value of a hexadecimal digit (0 for any other character). */
  function HexValue(c: char): (d: nat)
    ensures d < 16
  {
    if '0' <= c <= '9' then c as int - 48
    else if 'a' <= c <= 'f' then c as int - 87
    else 0
  }

  /**
   * How `repr` spells one character between quotes `q`: the quote and the
   * backslash are escaped, tab, newline and carriage return get their
   * letter, the other ASCII control characters and DEL a `\xhh` escape.
   */
  function ReprChar(c: char, q: char): (r: string)
    ensures r != []
  {
    if c == q || c == '\\' then ['\\', c]
    else if c == '\t' then "\\t"
    else if c == '\n' then "\\n"
    else if c == '\r' then "\\r"
    else if c < ' ' || c as int == 0x7F then ['\\', 'x', HexDigit(c as int / 16), HexDigit(c as int % 16)]
    else [c]
  }

  /** The characters of `p` spelled one by one. */
  function ReprBody(p: string, q: char): string
    decreases |p|
  {
    if p == [] then [] else ReprChar(p[0], q) + ReprBody(p[1..], q)
  }

  /** `repr(p)` for the paths in OS error messages. */
  function Quoted(p: string): (r: string)
    ensures |r| >= 2 && r[0] == QuoteFor(p) && r[|r| - 1] == QuoteFor(p)
  {
    [QuoteFor(p)] + ReprBody(p, QuoteFor(p)) + [QuoteFor(p)]
  }

  /** Reads back a spelling as Python's string-literal escapes do. */
  function Unescape(s: string): string
    decreases |s|
  {
    if s == [] then []
    else if s[0] == '\\' && |s| >= 4 && s[1] == 'x' then [(HexValue(s[2]) * 16 + HexValue(s[3])) as char] + Unescape(s[4..])
    else if s[0] == '\\' && |s| >= 2 then
      (if s[1] == 't' then "\t" else if s[1] == 'n' then "\n" else if s[1] == 'r' then "\r" else [s[1]]) + Unescape(s[2..])
    else [s[0]] + Unescape(s[1..])
  }

  lemma ReprCharInverse(c: char, q: char, rest: string)
    requires q != 'x' && q != 't' && q != 'n' && q != 'r'
    ensures Unescape(ReprChar(c, q) + rest) == [c] + Unescape(rest)
  {
    var s := ReprChar(c, q) + rest;
    if c == q || c == '\\' {
      assert s[2..] == rest;
    } else if c == '\t' || c == '\n' || c == '\r' {
      assert s[2..] == rest;
    } else if c < ' ' || c as int == 0x7F {
      assert s[4..] == rest;
      assert HexValue(s[2]) * 16 + HexValue(s[3]) == c as int;
    } else {
      assert s[1..] == rest;
    }
  }

  lemma {:induction false} ReprBodyInverse(p: string, q: char)
    requires q != 'x' && q != 't' && q != 'n' && q != 'r'
    ensures Unescape(ReprBody(p, q)) == p
    decreases |p|
  {
    if p != [] {
      ReprBodyInverse(p[1..], q);
      ReprCharInverse(p[0], q, ReprBody(p[1..], q));
      assert p == [p[0]] + p[1..];
    }
  }

  /** Between its quotes, `repr(p)` spells `p` without loss: reading the escapes back gives `p`. */
  lemma QuotedRoundTrip(p: string)
    ensures Unescape(Quoted(p)[1..|Quoted(p)| - 1]) == p
  {
    var q := QuoteFor(p);
    assert Quoted(p)[1..|Quoted(p)| - 1] == ReprBody(p, q);
    ReprBodyInverse(p, q);
  }

  lemma {:induction false} ReprBodyVerbatim(p: string, q: char)
    requires forall i :: 0 <= i < |p| ==> ' ' <= p[i] && p[i] as int != 0x7F && p[i] != '\\' && p[i] != q
    ensures ReprBody(p, q) == p
    decreases |p|
  {
    if p != [] {
      ReprBodyVerbatim(p[1..], q);
      assert p == [p[0]] + p[1..];
    }
  }

  /**
   * A path of printable characters with no backslash is quoted as it is:
   * in single quotes, or in double quotes when it holds a single quote and
   * no double quote ("it's.txt" becomes "\"it's.txt\"").
   */
  lemma QuotedVerbatim(p: string)
    requires forall i :: 0 <= i < |p| ==> ' ' <= p[i] && p[i] as int != 0x7F && p[i] != '\\'
    requires '\'' !in p || '"' !in p
    ensures Quoted(p) == [QuoteFor(p)] + p + [QuoteFor(p)]
    ensures '\'' in p ==> QuoteFor(p) == '"'
    ensures '\'' !in p ==> QuoteFor(p) == '\''
  {
    forall i | 0 <= i < |p| ensures p[i] != QuoteFor(p) {
      assert p[i] in p;
    }
    ReprBodyVerbatim(p, QuoteFor(p));
  }

  function NoSuchFileError(p: string): string {
    "[Errno 2] No such file or directory: " + Quoted(p)
  }

  function IsADirectoryError(p: string): string {
    "[Errno 21] Is a directory: " + Quoted(p)
  }

  function NotADirectoryError(p: string): string {
    "[Errno 20] Not a directory: " + Quoted(p)
  }

  /** The text of the `OSError` a failed `open(p)` raises. */
  function OpenError(o: ReadOutcome, p: string): string
    requires !o.Content?
  {
    match o
    case NotFound => NoSuchFileError(p)
    case IsADirectory => IsADirectoryError(p)
    case NotADirectory => NotADirectoryError(p)
  }

  datatype MakeDirsOutcome = Made(fs: Fs) | Failed(error: string)

  /** The first path of `chain` that is neither a file nor a directory (the last one if all exist). */
  function FirstAbsent(fs: Fs, chain: seq<string>): string
    requires chain != []
    decreases |chain|
  {
    if |chain| == 1 || (chain[0] !in fs.files && chain[0] !in fs.dirs) then chain[0]
    else FirstAbsent(fs, chain[1..])
  }

  /** The directories `os.makedirs(d)` visits: the proper ancestors, outermost first, then `d`. */
  function DirChain(d: string): (r: seq<string>)
    ensures r != [] && r[|r| - 1] == d
  {
    Ancestors(d) + [d]
  }

  /** The directories on `d`'s chain, as a set. */
  function ChainSet(d: string): set<string> {
    set k | 0 <= k < |DirChain(d)| :: DirChain(d)[k]
  }

  /** Some directory on the chain is already a file. */
  predicate ChainBlocked(fs: Fs, d: string) {
    exists k :: 0 <= k < |DirChain(d)| && DirChain(d)[k] in fs.files
  }

  /**
   * `os.makedirs(d, exist_ok=True)`: creates `d` and its missing ancestors;
   * fails on the empty path, when `d` is a file, or when an ancestor is a file.
   */
  function MakeDirs(fs: Fs, d: string): (r: MakeDirsOutcome)
    ensures r.Failed? <==> d == "" || (d !in fs.dirs && ChainBlocked(fs, d))
    ensures d == "" ==> r == Failed(NoSuchFileError(""))
    ensures d != "" && d !in fs.dirs && d in fs.files ==> r == Failed("[Errno 17] File exists: " + Quoted(d))
    ensures r.Made? ==> r.fs.files == fs.files && d in r.fs.dirs
    ensures d != "" && d in fs.dirs ==> r == Made(fs)
    ensures r.Made? && d !in fs.dirs ==> r.fs.dirs == fs.dirs + ChainSet(d)
  {
    if d == "" then Failed(NoSuchFileError(""))
    else if d in fs.dirs then Made(fs)
    else if d in fs.files then
      assert DirChain(d)[|DirChain(d)| - 1] in fs.files;
      Failed("[Errno 17] File exists: " + Quoted(d))
    else
      var chain := DirChain(d);
      if exists k :: 0 <= k < |chain| && chain[k] in fs.files then
        Failed(NotADirectoryError(FirstAbsent(fs, chain)))
      else
        assert chain[|chain| - 1] in ChainSet(d);
        Made(Fs(fs.files, fs.dirs + ChainSet(d)))
  }

  /** `Path(p).exists()`; the empty path and "." name the working directory. */
  predicate Exists(fs: Fs, p: string) {
    p == "" || p == "." || p in fs.files || p in fs.dirs
  }

  /**
   * The text a later `open(p, 'r').read()` gives for a file written with
   * `s` on POSIX: universal-newline reading turns "\r\n" and a lone "\r"
   * into "\n".
   */
  function ReadBack(s: string): (r: string)
    ensures '\r' !in r
    ensures '\r' !in s ==> r == s
    ensures |r| <= |s|
    decreases |s|
  {
    if s == [] then []
    else if s[0] == '\r' then "\n" + ReadBack(if |s| > 1 && s[1] == '\n' then s[2..] else s[1..])
    else [s[0]] + ReadBack(s[1..])
  }

  /** Reading back what was read back changes nothing more. */
  lemma ReadBackIdempotent(s: string)
    ensures ReadBack(ReadBack(s)) == ReadBack(s)
  {
  }

  /** A Windows line end and an old Mac one both come back as "\n". */
  lemma ReadBackLineEnds(b: string)
    ensures ReadBack("\r\n" + b) == "\n" + ReadBack(b)
    ensures (b == [] || b[0] != '\n') ==> ReadBack("\r" + b) == "\n" + ReadBack(b)
    ensures ReadBack("x\r\ny") == "x\ny"
  {
    assert ("\r\n" + b)[2..] == b;
    assert ("\r" + b)[1..] == b;
    assert ReadBack("y") == "y";
    assert ReadBack("\r\ny") == "\n" + ReadBack("y");
    assert "x\r\ny"[1..] == "\r\ny";
  }

  /** What `open(p, 'w')` followed by `write(text)` does; the file then reads back as `ReadBack(text)`. */
  function CreateFile(fs: Fs, p: string, text: string): (r: MakeDirsOutcome)
    ensures r.Made? ==> r.fs.files == fs.files[p := ReadBack(text)] && r.fs.dirs == fs.dirs
    ensures r.Made? <==> p != "" && p !in fs.dirs && !EndsWith(p, "/")
  {
    if p == "" then Failed(NoSuchFileError(p))
    else if p in fs.dirs || EndsWith(p, "/") then Failed(IsADirectoryError(p))
    else Made(Fs(fs.files[p := ReadBack(text)], fs.dirs))
  }

  /** What a directory walk reports for one entry. */
  datatype Kind = File | Dir | Other

  /**
   * One entry yielded by `Path.iterdir()` or `Path.rglob("*")`: `str(item)`,
   * the text shown for it (its name, or its path relative to the listed
   * directory), and what it is.
   */
  datatype Listed = Listed(path: string, shown: string, kind: Kind)

  /** A directory walk, in the operating system's order, or the error it raised. */
  datatype Listing = Entries(items: seq<Listed>) | WalkFailed(error: string)

  /** The machine's filesystem, which the file tools read and change in place. */
  class Disk {
    var state: Fs

    constructor(init: Fs)
      ensures state == init
    {
      state := init;
    }
  }
}
