/** pkg/fs: reading YAML files, hashing a directory tree and reading a template directory. */
module Fs {
  import opened Wrappers
  import opened Values
  import opened Errors
  import opened Externals
  import opened GoStrings
  import GoPath
  import Engine

  /** Reads a file, renders it with no values and empty lines kept, and parses it as YAML. */
  function UnmarshalYaml(path: string, m: Machine, lib: Libraries): (r: Result<map<string, Value>, Error>)
    ensures m.readFile(path).Err? ==> r == Err(Io(m.readFile(path).error))
    ensures m.readFile(path).Ok? && Engine.Render(m.readFile(path).value, Null, false, lib).Err? ==>
      r == Engine.Render(m.readFile(path).value, Null, false, lib).PropagateFailure()
    ensures m.readFile(path).Ok? && Engine.Render(m.readFile(path).value, Null, false, lib).Ok? ==>
      r == Lift(lib.parseYaml(Engine.Render(m.readFile(path).value, Null, false, lib).value))
  {
    var content :- Lift(m.readFile(path));
    var rendered :- Engine.Render(content, Null, false, lib);
    Lift(lib.parseYaml(rendered))
  }

  // ---------------------------------------------------------------------------------------
  // The `%x` formatting of a digest.

  function HexDigit(d: int): (ch: char)
    requires 0 <= d < 16
    ensures ch as int == if d < 10 then 48 + d else 87 + d
  {
    if d < 10 then (48 + d) as char else (87 + d) as char
  }

  predicate IsHexDigit(ch: char) {
    '0' <= ch <= '9' || 'a' <= ch <= 'f'
  }

  /** Two lower-case hex digits per byte, most significant first. */
  function Hex(bs: seq<byte>): (r: string)
    ensures |r| == 2 * |bs|
    ensures forall i :: 0 <= i < |r| ==> IsHexDigit(r[i])
  {
    if bs == [] then ""
    else [HexDigit(bs[0] as int / 16), HexDigit(bs[0] as int % 16)] + Hex(bs[1..])
  }

  /** Distinct hashes print differently. */
  lemma {:induction false} HexInjective(a: seq<byte>, b: seq<byte>)
    requires Hex(a) == Hex(b)
    ensures a == b
  {
    if a != [] {
      assert Hex(a)[0] == Hex(b)[0] && Hex(a)[1] == Hex(b)[1];
      assert a[0] as int / 16 == b[0] as int / 16;
      assert a[0] as int % 16 == b[0] as int % 16;
      assert a[0] == b[0];
      assert Hex(a[1..]) == Hex(a)[2..] == Hex(b)[2..] == Hex(b[1..]);
      HexInjective(a[1..], b[1..]);
      assert a == [a[0]] + a[1..] && b == [b[0]] + b[1..];
    }
  }

  // ---------------------------------------------------------------------------------------
  // DirectoryDigest

  /**
   * What the walk callback writes into the hash, in walk order: the contents of every file;
   * directories and paths the walk reports an error for add nothing; the first file that
   * cannot be read stops the walk with its error.
   */
  function Fed(events: seq<WalkEvent>, read: string -> Result<string, string>): Result<string, string>
    decreases |events|
  {
    if events == [] then Ok("")
    else
      var written :- Fed(events[..|events| - 1], read);
      match events[|events| - 1]
      case WalkFailed(_) => Ok(written)
      case Visited(p, isDir) =>
        if isDir then Ok(written)
        else match read(p)
          case Err(e) => Err(e)
          case Ok(content) => Ok(written + content)
  }

  /** The digest string: `sha256:` and the hex hash, or "" when the walk stopped on an error. */
  function DigestOf(events: seq<WalkEvent>, read: string -> Result<string, string>,
                    sha256: string -> seq<byte>): string
  {
    match Fed(events, read)
    case Err(_) => ""
    case Ok(written) => "sha256:" + Hex(sha256(written))
  }

  /** Directories, and paths the walk could not visit, do not enter the hash. */
  predicate Silent(e: WalkEvent) {
    e.WalkFailed? || e.isDir
  }

  lemma {:induction false} FedAppend(a: seq<WalkEvent>, b: seq<WalkEvent>, read: string -> Result<string, string>)
    ensures Fed(a + b, read) ==
      (match Fed(a, read)
       case Err(e) => Err(e)
       case Ok(x) => (match Fed(b, read) case Err(e) => Err(e) case Ok(y) => Ok(x + y)))
    decreases |b|
  {
    if b == [] {
      assert a + b == a;
      if Fed(a, read).Ok? { assert Fed(a, read).value + "" == Fed(a, read).value; }
    } else {
      var init := b[..|b| - 1];
      assert (a + b)[..|a + b| - 1] == a + init;
      assert (a + b)[|a + b| - 1] == b[|b| - 1];
      FedAppend(a, init, read);
      if Fed(a, read).Ok? && Fed(init, read).Ok? {
        var x, y := Fed(a, read).value, Fed(init, read).value;
        match b[|b| - 1] {
          case WalkFailed(_) =>
          case Visited(p, isDir) =>
            if !isDir && read(p).Ok? {
              assert x + y + read(p).value == x + (y + read(p).value);
            }
        }
      }
    }
  }

  /** Hashing is in walk order: the bytes of the walks of `a` then `b` are those of `a` and of `b`. */
  lemma FedConcat(a: seq<WalkEvent>, b: seq<WalkEvent>, read: string -> Result<string, string>)
    requires Fed(a, read).Ok? && Fed(b, read).Ok?
    ensures Fed(a + b, read) == Ok(Fed(a, read).value + Fed(b, read).value)
  {
    FedAppend(a, b, read);
  }

  /** A directory or an unvisitable path can be removed from the walk without changing the digest. */
  lemma SilentEventIgnored(a: seq<WalkEvent>, e: WalkEvent, b: seq<WalkEvent>,
                           read: string -> Result<string, string>, sha256: string -> seq<byte>)
    requires Silent(e)
    ensures Fed(a + [e] + b, read) == Fed(a + b, read)
    ensures DigestOf(a + [e] + b, read, sha256) == DigestOf(a + b, read, sha256)
  {
    FedAppend(a + [e], b, read);
    FedAppend(a, b, read);
    assert (a + [e])[..|a + [e]| - 1] == a;
  }

  /** An unreadable file anywhere in the walk makes the digest "" (and no error is reported). */
  lemma UnreadableFileEmptiesDigest(a: seq<WalkEvent>, p: string, b: seq<WalkEvent>,
                                    read: string -> Result<string, string>, sha256: string -> seq<byte>)
    requires read(p).Err?
    ensures DigestOf(a + [Visited(p, false)] + b, read, sha256) == ""
  {
    FedAppend(a + [Visited(p, false)], b, read);
    assert (a + [Visited(p, false)])[..|a + [Visited(p, false)]| - 1] == a;
  }

  /**
   * A complete walk gives `sha256:` and two hex digits per hash byte, and two complete walks
   * give the same digest exactly when the hash of what they wrote is the same.
   */
  lemma DigestFormat(events: seq<WalkEvent>, others: seq<WalkEvent>,
                     read: string -> Result<string, string>, sha256: string -> seq<byte>)
    requires Fed(events, read).Ok? && Fed(others, read).Ok?
    ensures var d := DigestOf(events, read, sha256);
      d[..7] == "sha256:" && |d| == 7 + 2 * |sha256(Fed(events, read).value)|
      && forall i :: 7 <= i < |d| ==> IsHexDigit(d[i])
    ensures DigestOf(events, read, sha256) == DigestOf(others, read, sha256) <==>
      sha256(Fed(events, read).value) == sha256(Fed(others, read).value)
  {
    var x, y := sha256(Fed(events, read).value), sha256(Fed(others, read).value);
    if DigestOf(events, read, sha256) == DigestOf(others, read, sha256) {
      assert ("sha256:" + Hex(x))[7..] == Hex(x);
      assert ("sha256:" + Hex(y))[7..] == Hex(y);
      HexInjective(x, y);
    }
  }

  /** The digest is "" exactly when the walk stopped on an unreadable file. */
  lemma DigestEmptyOnlyOnFailure(events: seq<WalkEvent>, read: string -> Result<string, string>,
                                 sha256: string -> seq<byte>)
    ensures DigestOf(events, read, sha256) == "" <==> Fed(events, read).Err?
  {
  }

  /**
   * Walks `root`, writing each file's contents into the hash in walk order, and returns the
   * digest; when a file cannot be read the walk stops and the digest is "" (the error the
   * walk returned is dropped).
   */
  method DirectoryDigest(root: string, m: Machine, lib: Libraries) returns (digest: string)
    ensures digest == DigestOf(m.walk(root), m.readFile, lib.sha256)
  {
    var events := m.walk(root);
    var written := "";
    var i := 0;
    while i < |events|
      invariant 0 <= i <= |events|
      invariant Fed(events[..i], m.readFile) == Ok(written)
    {
      assert events[..i + 1][..i] == events[..i];
      match events[i] {
        case WalkFailed(_) =>
        case Visited(p, isDir) =>
          if !isDir {
            var content := m.readFile(p);
            if content.Err? {
              FedAppend(events[..i + 1], events[i + 1..], m.readFile);
              assert events[..i + 1] + events[i + 1..] == events;
              return "";
            }
            written := written + content.value;
          }
      }
      i := i + 1;
    }
    assert events[..i] == events;
    digest := "sha256:" + Hex(lib.sha256(written));
  }

  // ---------------------------------------------------------------------------------------
  // ReadFiles

  /** The paths read: the argument itself, or, for a directory, the matches of the pattern `*` inside it. */
  function Targets(dirOrFilePath: string, m: Machine): (r: Result<seq<string>, Error>)
    ensures m.stat(dirOrFilePath).Err? ==> r == Err(Io(m.stat(dirOrFilePath).error))
    ensures m.stat(dirOrFilePath) == Ok(false) ==> r == Ok([dirOrFilePath])
    ensures m.stat(dirOrFilePath) == Ok(true) ==> r == Lift(m.glob(GoPath.Join([dirOrFilePath, "*"])))
  {
    var isDir :- Lift(m.stat(dirOrFilePath));
    if isDir then Lift(m.glob(GoPath.Join([dirOrFilePath, "*"]))) else Ok([dirOrFilePath])
  }

  /** The contents of `paths` in order, or the error of the first that cannot be read. */
  function ReadAll(paths: seq<string>, read: string -> Result<string, string>): Result<seq<string>, Error>
    decreases |paths|
  {
    if paths == [] then Ok([])
    else
      var init :- ReadAll(paths[..|paths| - 1], read);
      var content :- Lift(read(paths[|paths| - 1]));
      Ok(init + [content])
  }

  function ReadFilesOf(dirOrFilePath: string, m: Machine): Result<seq<string>, Error> {
    var paths :- Targets(dirOrFilePath, m);
    ReadAll(paths, m.readFile)
  }

  /** One content per path, each the content of that path. */
  lemma {:induction false} ReadAllContents(paths: seq<string>, read: string -> Result<string, string>)
    requires ReadAll(paths, read).Ok?
    ensures |ReadAll(paths, read).value| == |paths|
    ensures forall i :: 0 <= i < |paths| ==> read(paths[i]) == Ok(ReadAll(paths, read).value[i])
    decreases |paths|
  {
    if paths != [] {
      var init := paths[..|paths| - 1];
      ReadAllContents(init, read);
      assert forall i :: 0 <= i < |init| ==> paths[i] == init[i];
    }
  }

  /** Reading succeeds exactly when every path is readable. */
  lemma {:induction false} ReadAllSucceeds(paths: seq<string>, read: string -> Result<string, string>)
    ensures ReadAll(paths, read).Ok? <==> forall i :: 0 <= i < |paths| ==> read(paths[i]).Ok?
    decreases |paths|
  {
    if paths != [] {
      var init := paths[..|paths| - 1];
      ReadAllSucceeds(init, read);
      assert forall i :: 0 <= i < |init| ==> paths[i] == init[i];
      if ReadAll(paths, read).Ok? {
        ReadAllContents(paths, read);
      }
    }
  }

  /** The error is that of the first unreadable path. */
  lemma {:induction false} ReadAllFirstError(paths: seq<string>, read: string -> Result<string, string>, k: nat)
    requires k < |paths| && read(paths[k]).Err?
    requires forall i :: 0 <= i < k ==> read(paths[i]).Ok?
    ensures ReadAll(paths, read) == Err(Io(read(paths[k]).error))
    decreases |paths|
  {
    var init := paths[..|paths| - 1];
    if k < |paths| - 1 {
      ReadAllFirstError(init, read, k);
    } else {
      assert forall i :: 0 <= i < |init| ==> paths[i] == init[i];
      ReadAllSucceeds(init, read);
    }
  }

  /** `fs.ReadFiles`: reads the file, or every entry the pattern `*` matches in the directory, in order. */
  method ReadFiles(dirOrFilePath: string, m: Machine) returns (r: Result<seq<string>, Error>)
    ensures r == ReadFilesOf(dirOrFilePath, m)
  {
    var paths :- Targets(dirOrFilePath, m);
    var contents: seq<string> := [];
    var i := 0;
    while i < |paths|
      invariant 0 <= i <= |paths|
      invariant ReadAll(paths[..i], m.readFile) == Ok(contents)
    {
      assert paths[..i + 1][..i] == paths[..i];
      var content := m.readFile(paths[i]);
      if content.Err? {
        ReadAllSucceeds(paths[..i], m.readFile);
        assert forall j :: 0 <= j < i ==> paths[..i][j] == paths[j];
        ReadAllFirstError(paths, m.readFile, i);
        return Err(Io(content.error));
      }
      contents := contents + [content.value];
      i := i + 1;
    }
    assert paths[..i] == paths;
    r := Ok(contents);
  }
}
