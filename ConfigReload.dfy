/**
 * The risk parameter file (`RiskConfig`): a JSON object that may carry `//`
 * comments, cached in memory and reloaded whenever the file's modification
 * time changes. The file system is an explicit input (`ConfigFile`) and JSON
 * parsing is an abstract function of the comment-stripped text.
 */
module ConfigReload {
  import opened Common

  /** What the file system reports for the configured path. */
  datatype ConfigFile = Missing | Present(mtime: real, lines: seq<string>)

  /** `json.loads` on a text: any JSON value, not only an object; None where it raises. */
  type Parser = string -> Option<Json>

  /** `reload`'s answer: True, False, or an exception from the JSON parser. */
  datatype ReloadOutcome = Updated | NotUpdated | Raised

  /** The two fields `reload` maintains; the cache is whatever the file held. */
  datatype ConfigState = ConfigState(cache: Json, mtime: real)

  /** The state `__init__` starts from: an empty dict and mtime 0. */
  const Fresh := ConfigState(JObject(map[]), 0.0)

  // ------------------------------------------------------------ comments

  /** No occurrence of "//" starts before position `i` of `s`. */
  lemma FindBefore(s: string, i: nat, j: nat)
    requires Find(s, "//") == Some(i)
    requires j + 2 <= |s| && s[j..j + 2] == "//"
    ensures i <= j
  {
    FindFirst(s, "//", j);
  }

  /** `line.split("//", 1)[0]` when the line contains "//", else the line itself. */
  function CutComment(line: string): (r: string)
    ensures IsPrefix(r, line)
    ensures !Contains(r, "//")
    ensures Contains(line, "//") ==> |r| + 2 <= |line| && line[|r|..|r| + 2] == "//"
    ensures !Contains(line, "//") ==> r == line
  {
    match Find(line, "//")
    case None => line
    case Some(i) =>
      var r := line[..i];
      assert !Contains(r, "//") by {
        if Contains(r, "//") {
          var j := Find(r, "//").value;
          assert j + 2 <= i;
          assert r[j] == line[j] && r[j + 1] == line[j + 1];
          assert line[j..j + 2] == r[j..j + 2];
          FindBefore(line, i, j);
          assert false;
        }
      }
      r
  }

  /** The loop of `_load_json`: every line cut at its first "//", in order. */
  method StripComments(lines: seq<string>) returns (kept: seq<string>)
    ensures |kept| == |lines|
    ensures forall i :: 0 <= i < |lines| ==> kept[i] == CutComment(lines[i])
  {
    kept := [];
    for i := 0 to |lines|
      invariant |kept| == i
      invariant forall k :: 0 <= k < i ==> kept[k] == CutComment(lines[k])
    {
      kept := kept + [CutComment(lines[i])];
    }
  }

  /** The cut lines, as a value. */
  function Stripped(lines: seq<string>): (r: seq<string>)
    ensures |r| == |lines|
    ensures forall i :: 0 <= i < |lines| ==> r[i] == CutComment(lines[i])
  {
    if lines == [] then [] else [CutComment(lines[0])] + Stripped(lines[1..])
  }

  /** The text handed to the JSON parser: the cut lines joined by "\n", or "{}" when that is empty. */
  function LoadText(lines: seq<string>): (r: string)
    ensures r != ""
    ensures Join("\n", Stripped(lines)) != "" ==> r == Join("\n", Stripped(lines))
  {
    var text := Join("\n", Stripped(lines));
    if text == "" then "{}" else text
  }

  /** A file without lines, or with one line that is all comment, reads as the empty object's text. */
  lemma EmptyTextIsEmptyObject(lines: seq<string>)
    requires |lines| <= 1
    requires forall i :: 0 <= i < |lines| ==> CutComment(lines[i]) == ""
    ensures LoadText(lines) == "{}"
  {
  }

  /**
   * Only an empty text falls back to "{}": a file of two comment lines joins
   * to a lone newline, which reaches the parser as it is.
   */
  lemma TwoCommentLinesNotDefaulted()
    ensures LoadText(["// a\n", "// b\n"]) == "\n"
  {
    assert IsPrefix("//", "// a\n") && IsPrefix("//", "// b\n");
    assert CutComment("// a\n") == "" && CutComment("// b\n") == "";
    assert Stripped(["// a\n", "// b\n"]) == ["", ""];
  }

  /** A line is parsed whole up to its first "//", and nothing after it survives. */
  lemma CommentDropped(lines: seq<string>, i: nat)
    requires i < |lines|
    requires Contains(lines[i], "//")
    ensures Stripped(lines)[i] == lines[i][..|Stripped(lines)[i]|]
    ensures !Contains(Stripped(lines)[i], "//")
  {
  }

  // ------------------------------------------------------------ reload

  /** `reload` on the state `st`, answering for the file `file`. */
  function Reloaded(st: ConfigState, file: ConfigFile, parse: Parser): (ConfigState, ReloadOutcome)
  {
    match file
    case Missing => (st, NotUpdated)
    case Present(m, lines) =>
      if m == st.mtime then (st, NotUpdated)
      else match parse(LoadText(lines))
        case None => (st, Raised)
        case Some(d) => (ConfigState(d, m), Updated)
  }

  /** A missing file: False, and the cache and stored mtime stay as they were. */
  lemma MissingKeepsCache(st: ConfigState, parse: Parser)
    ensures Reloaded(st, Missing, parse) == (st, NotUpdated)
  {
  }

  /**
   * The answer is True exactly when the file exists, its mtime differs from
   * the stored one and its text parses; the cache and mtime are then those
   * of the file, and otherwise they are unchanged.
   */
  lemma ReloadUpdatesIff(st: ConfigState, file: ConfigFile, parse: Parser)
    ensures Reloaded(st, file, parse).1 == Updated <==>
      file.Present? && file.mtime != st.mtime && parse(LoadText(file.lines)).Some?
    ensures Reloaded(st, file, parse).1 == Updated ==>
      Reloaded(st, file, parse).0 == ConfigState(parse(LoadText(file.lines)).value, file.mtime)
    ensures Reloaded(st, file, parse).1 != Updated ==> Reloaded(st, file, parse).0 == st
  {
  }

  /** Reloading an unchanged file a second time answers False and changes nothing. */
  lemma ReloadIdempotent(st: ConfigState, file: ConfigFile, parse: Parser)
    requires Reloaded(st, file, parse).1 != Raised
    ensures Reloaded(Reloaded(st, file, parse).0, file, parse) == (Reloaded(st, file, parse).0, NotUpdated)
  {
  }

  class RiskConfig {
    var cache: Json
    var mtime: real

    function State(): ConfigState
      reads this
    {
      ConfigState(cache, mtime)
    }

    /** `__init__`: an empty cache, mtime 0, and exactly one reload, which must not raise. */
    constructor (file: ConfigFile, parse: Parser)
      requires Reloaded(Fresh, file, parse).1 != Raised
      ensures State() == Reloaded(Fresh, file, parse).0
    {
      cache := JObject(map[]);
      mtime := 0.0;
      new;
      var _ := Reload(file, parse);
    }

    method Reload(file: ConfigFile, parse: Parser) returns (outcome: ReloadOutcome)
      modifies this
      ensures (State(), outcome) == Reloaded(old(State()), file, parse)
    {
      if file.Missing? {
        return NotUpdated;
      }
      if file.mtime != mtime {
        var kept := StripComments(file.lines);
        assert kept == Stripped(file.lines);
        var text := Join("\n", kept);
        if text == "" {
          text := "{}";
        }
        var parsed := parse(text);
        if parsed.None? {
          return Raised;
        }
        cache := parsed.value;
        mtime := file.mtime;
        return Updated;
      }
      return NotUpdated;
    }

    /**
     * `get(key, default)`: the cached value, or the default for an absent
     * key; None where the cache is not a dict, so that `.get` raises
     * AttributeError.
     */
    function Get(key: string, default: Json): (r: Option<Json>)
      reads this
      ensures r.None? <==> !cache.JObject?
      ensures cache.JObject? && key in cache.fields ==> r == Some(cache.fields[key])
      ensures cache.JObject? && key !in cache.fields ==> r == Some(default)
    {
      match cache
      case JObject(fields) => Some(if key in fields then fields[key] else default)
      case _ => None
    }
  }
}
