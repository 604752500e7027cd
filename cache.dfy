/**
  The dedup cache: a set of keys in memory, backed by an append-only log file to which
  every new key is written followed by a newline. Telegram keys carry the prefix `t-`, Twitter keys `x-`.
*/
module Cache {
  import opened Wrappers
  import opened Text

  /** What the filesystem holds at the cache path; a regular file is its text. */
  datatype FileState = Missing | RegularFile(text: string) | NotAFile

  /** A character that ends a line when a file is read in text mode: `\n` or `\r`. */
  predicate IsBreak(c: char) {
    c == '\n' || c == '\r'
  }

  /** Text with no line break in it. */
  predicate NoBreak(s: string) {
    forall j :: 0 <= j < |s| ==> !IsBreak(s[j])
  }

  /** The index of the last line break in `s`, or -1 when it has none. */
  function LastBreak(s: string): (k: int)
    ensures -1 <= k < |s|
    ensures k >= 0 ==> IsBreak(s[k])
  {
    if s == [] then -1
    else if IsBreak(s[|s| - 1]) then |s| - 1
    else LastBreak(s[..|s| - 1])
  }

  /** The text without its final line ending, where `\r\n` is one ending. */
  function Unended(text: string): (r: string)
    ensures |r| < |text| || (r == text && (text == [] || !IsBreak(text[|text| - 1])))
  {
    if |text| >= 2 && text[|text| - 2] == '\r' && text[|text| - 1] == '\n' then text[..|text| - 2]
    else if text != [] && IsBreak(text[|text| - 1]) then text[..|text| - 1]
    else text
  }

  /**
    `f.readlines()` in text mode, each line without its ending. Universal newlines end a
    line at `\n`, `\r` or `\r\n`, and a last line without an ending is a line too: the
    last line is what follows the last break once the final ending is dropped.
  */
  function ReadLines(text: string): seq<string>
    decreases |text|
  {
    if text == [] then []
    else
      var body := Unended(text);
      var k := LastBreak(body);
      if k < 0 then [body] else ReadLines(body[..k + 1]) + [body[k + 1..]]
  }

  /** A text whose last line is finished, so what is appended starts a line of its own. */
  predicate EndsLine(text: string) {
    text == [] || IsBreak(text[|text| - 1])
  }

  /** Break-free text after `a` does not move the last break of `a`. */
  lemma {:induction false} LastBreakAfter(a: string, c: string)
    requires NoBreak(c)
    ensures LastBreak(a + c) == LastBreak(a)
  {
    if c == [] {
      assert a + c == a;
    } else {
      var t := a + c;
      assert t[|t| - 1] == c[|c| - 1];
      assert t[..|t| - 1] == a + c[..|c| - 1];
      LastBreakAfter(a, c[..|c| - 1]);
    }
  }

  /**
    Non-empty, break-free content written with its newline after a finished line reads
    back as the old lines followed by exactly that one line.
  */
  lemma AppendLine(a: string, c: string)
    requires EndsLine(a) && c != [] && NoBreak(c)
    ensures ReadLines(a + c + "\n") == ReadLines(a) + [c]
  {
    var t := a + c + "\n";
    assert t[|t| - 2] == c[|c| - 1];
    var body := a + c;
    assert Unended(t) == body;
    LastBreakAfter(a, c);
    if a == [] {
      assert body == c;
    } else {
      assert LastBreak(a) == |a| - 1;
      assert body[..|a|] == a && body[|a|..] == c;
    }
  }

  /** Break-free content written with its newline reads back as that one line. */
  lemma OneLine(content: string)
    requires NoBreak(content)
    ensures ReadLines(content + "\n") == [content]
  {
    var t := content + "\n";
    if content != [] {
      assert t[|t| - 2] == content[|content| - 1];
    }
    assert Unended(t) == content;
    LastBreakAfter([], content);
    assert [] + content == content;
  }

  /**
    A key with a line break is written as several lines and reloads as other keys:
    `set("a\nb")` makes a later run hold "a" and "b" instead.
  */
  lemma BrokenKeyReloadsSplit()
    ensures ReadLines("a\nb" + "\n") == ["a", "b"]
    ensures LoadedKeys(ReadLines("a\nb" + "\n")) == {"a", "b"}
  {
    AppendLine("a\n", "b");
    assert "a\n" + "b" + "\n" == "a\nb" + "\n";
    OneLine("a");
    assert "a" + "\n" == "a\n";
    StripClean("a");
    StripClean("b");
    assert ["a", "b"][..1] == ["a"];
    assert ["a"][..0] == [];
  }

  /** A log whose last line is unfinished has the next key glued onto that line. */
  lemma UnfinishedLineGlues()
    ensures ReadLines("a" + "b" + "\n") == ["ab"]
  {
    OneLine("ab");
    assert "a" + "b" == "ab";
  }

  /** The keys a log loads as: its stripped, non-blank lines. */
  function LoadedKeys(lines: seq<string>): set<string> {
    if lines == [] then {}
    else
      var last := Strip(lines[|lines| - 1]);
      LoadedKeys(lines[..|lines| - 1]) + (if last != "" then {last} else {})
  }

  lemma LoadedKeysSnoc(lines: seq<string>, i: nat)
    requires i < |lines|
    ensures var t := Strip(lines[i]);
      LoadedKeys(lines[..i + 1]) == LoadedKeys(lines[..i]) + (if t != "" then {t} else {})
  {
    var p := lines[..i + 1];
    assert p[..|p| - 1] == lines[..i];
  }

  /** A key is loaded exactly when some line of the log strips to it. */
  lemma {:induction false} LoadedKeysMembers(lines: seq<string>, k: string)
    ensures k in LoadedKeys(lines) <==> k != "" && exists i :: 0 <= i < |lines| && Strip(lines[i]) == k
  {
    if lines != [] {
      var init := lines[..|lines| - 1];
      LoadedKeysMembers(init, k);
      if k in LoadedKeys(init) {
        var i :| 0 <= i < |init| && Strip(init[i]) == k;
        assert lines[i] == init[i];
      }
      if k != "" && exists i :: 0 <= i < |lines| && Strip(lines[i]) == k {
        var i :| 0 <= i < |lines| && Strip(lines[i]) == k;
        if i < |init| {
          assert init[i] == lines[i];
        }
      }
    }
  }

  /**
    A key the cache can write and read back unchanged: non-empty, no surrounding
    whitespace and no line break inside.
  */
  predicate Storable(k: string) {
    k != "" && Clean(k) && NoBreak(k)
  }

  /** The log that `set` writes for a fresh cache given these keys in turn: each with its newline. */
  function Written(ks: seq<string>): (text: string)
    ensures EndsLine(text)
  {
    if ks == [] then "" else Written(ks[..|ks| - 1]) + ks[|ks| - 1] + "\n"
  }

  /** The log written for storable keys reads back as those keys, one per line. */
  lemma {:induction false} WrittenLines(ks: seq<string>)
    requires forall i :: 0 <= i < |ks| ==> Storable(ks[i])
    ensures ReadLines(Written(ks)) == ks
  {
    if ks != [] {
      var init := ks[..|ks| - 1];
      var last := ks[|ks| - 1];
      assert forall i :: 0 <= i < |init| ==> init[i] == ks[i];
      WrittenLines(init);
      var w := Written(init);
      assert Written(ks) == w + last + "\n";
      assert ReadLines(w + last + "\n") == ReadLines(w) + [last] by {
        assert Storable(last);
        AppendLine(w, last);
      }
      assert init + [last] == ks;
    }
  }

  /** Storable lines load as exactly the keys they hold. */
  lemma {:induction false} StorableLinesLoad(ks: seq<string>)
    requires forall i :: 0 <= i < |ks| ==> Storable(ks[i])
    ensures LoadedKeys(ks) == Keys(ks)
  {
    if ks != [] {
      StorableLinesLoad(ks[..|ks| - 1]);
      StripClean(ks[|ks| - 1]);
      KeysSnoc(ks);
    }
  }

  /** Reloading a log written only with storable keys gives back exactly those keys. */
  lemma ReloadRoundTrip(ks: seq<string>)
    requires forall i :: 0 <= i < |ks| ==> Storable(ks[i])
    ensures ReadLines(Written(ks)) == ks
    ensures LoadedKeys(ReadLines(Written(ks))) == Keys(ks)
  {
    WrittenLines(ks);
    StorableLinesLoad(ks);
  }

  /** The distinct entries of a sequence of keys. */
  function Keys(ks: seq<string>): set<string> {
    set i | 0 <= i < |ks| :: ks[i]
  }

  lemma KeysSnoc(ks: seq<string>)
    requires ks != []
    ensures Keys(ks) == Keys(ks[..|ks| - 1]) + {ks[|ks| - 1]}
  {
    var init := ks[..|ks| - 1];
    forall k | k in Keys(ks) ensures k in Keys(init) + {ks[|ks| - 1]} {
      var i :| 0 <= i < |ks| && ks[i] == k;
      if i < |init| {
        assert init[i] == k;
      }
    }
    forall k | k in Keys(init) ensures k in Keys(ks) {
      var i :| 0 <= i < |init| && init[i] == k;
      assert ks[i] == k;
    }
  }

  /**
    `_load_from_file`: a missing file loads as no keys, a file as its stripped non-blank
    lines. Stripping removes a line's ending, so the lines are taken without it.
  */
  method LoadFromFile(file: FileState) returns (result: set<string>)
    requires !file.NotAFile?
    ensures file.Missing? ==> result == {}
    ensures file.RegularFile? ==> result == LoadedKeys(ReadLines(file.text))
  {
    result := {};
    if file.Missing? {
      return;
    }
    var lines := ReadLines(file.text);
    var i := 0;
    while i < |lines|
      invariant 0 <= i <= |lines|
      invariant result == LoadedKeys(lines[..i])
    {
      var trimmed := Strip(lines[i]);
      LoadedKeysSnoc(lines, i);
      if trimmed != "" {
        result := result + {trimmed};
      }
      i := i + 1;
    }
    assert lines[..i] == lines;
  }

  class CacheManager {
    const cacheFile: string
    /** `_cache`: the keys seen so far. */
    var keys: set<string>
    /** The text of the log file; empty while the file does not exist. */
    var log: string

    /** The keys in memory are the keys a reload of the log would give. */
    predicate Durable()
      reads this
    {
      keys == LoadedKeys(ReadLines(log))
    }

    constructor FromLog(cacheFile: string, keys: set<string>, log: string)
      ensures this.cacheFile == cacheFile && this.keys == keys && this.log == log
    {
      this.cacheFile := cacheFile;
      this.keys := keys;
      this.log := log;
    }

    /** `contains(key)`. */
    method Contains(key: string) returns (b: bool)
      ensures b <==> key in keys
    {
      b := key in keys;
    }

    /**
      `set(content)`: a new key joins the set and is appended to the log with a newline; a
      key already present changes nothing. Only a storable key written after a finished
      line reloads as itself.
    */
    method Set(content: string)
      modifies this
      ensures content in keys && old(keys) <= keys
      ensures content in old(keys) ==> keys == old(keys) && log == old(log)
      ensures content !in old(keys) ==> keys == old(keys) + {content} && log == old(log) + content + "\n"
      ensures content !in old(keys) && EndsLine(old(log)) && content != [] && NoBreak(content) ==>
        ReadLines(log) == ReadLines(old(log)) + [content]
      ensures old(Durable()) && EndsLine(old(log)) && Storable(content) ==> Durable() && EndsLine(log)
    {
      if content in keys {
        return;
      }
      keys := keys + {content};
      SyncToFile(content);
      if old(Durable()) && EndsLine(old(log)) && Storable(content) {
        StripClean(content);
        var before := ReadLines(old(log));
        assert (before + [content])[..|before|] == before;
      }
    }

    /**
      `_sync_to_file`: append the content and a newline. After a finished line, content
      without a line break becomes exactly one new line.
    */
    method SyncToFile(content: string)
      modifies this`log
      ensures log == old(log) + content + "\n"
      ensures EndsLine(old(log)) && content != [] && NoBreak(content) ==>
        ReadLines(log) == ReadLines(old(log)) + [content]
    {
      log := log + content + "\n";
      if EndsLine(old(log)) && content != [] && NoBreak(content) {
        AppendLine(old(log), content);
      }
    }
  }

  /**
    `CacheManager(cache_file)`: fails when the path exists and is not a regular file;
    otherwise the keys are loaded from the log (none when there is no file yet).
  */
  method Open(cacheFile: string, file: FileState) returns (r: Result<CacheManager, string>)
    ensures r.Failure? <==> file.NotAFile?
    ensures r.Failure? ==> r.error == "文件 " + cacheFile + " 存在且不是文件"
    ensures r.Success? ==> fresh(r.value) && r.value.cacheFile == cacheFile && r.value.Durable()
    ensures r.Success? && file.Missing? ==> r.value.keys == {} && r.value.log == ""
    ensures r.Success? && file.RegularFile? ==> r.value.log == file.text
  {
    if file.NotAFile? {
      return Failure("文件 " + cacheFile + " 存在且不是文件");
    }
    var loaded := LoadFromFile(file);
    var log := if file.RegularFile? then file.text else "";
    var c := new CacheManager.FromLog(cacheFile, loaded, log);
    return Success(c);
  }
}
