/**
 * The one-off maintenance script replace_fonts.mjs: in each of four scene files it rewrites
 * every `<Text …>` tag that names no font so that it loads "/Roboto-Regular.ttf", and writes
 * the file back only when some tag changed. File contents are strings; the file system is a
 * map from path to content.
 */
module ReplaceFonts {
  import opened Common

  /** The characters JavaScript's `\s` matches. */
  predicate IsSpace(c: char)
  {
    c == ' ' || c == '\t' || c == '\n' || c == '\U{000B}' || c == '\U{000C}' || c == '\r' ||
    c == '\U{00A0}' || c == '\U{1680}' || ('\U{2000}' <= c <= '\U{200A}') || c == '\U{2028}' || c == '\U{2029}' ||
    c == '\U{202F}' || c == '\U{205F}' || c == '\U{3000}' || c == '\U{FEFF}'
  }

  /** `<Text` followed by one whitespace character. */
  predicate TagStart(s: string)
  {
    |s| >= 6 && s[..5] == "<Text" && IsSpace(s[5])
  }

  /** The first '>' at or after `from`. */
  function FirstGt(s: string, from: nat): (r: Option<nat>)
    requires from <= |s|
    ensures r.Some? ==> from <= r.value < |s| && s[r.value] == '>' && '>' !in s[from..r.value]
    ensures r.None? ==> '>' !in s[from..]
    decreases |s| - from
  {
    if from == |s| then None
    else if s[from] == '>' then Some(from)
    else
      var r := FirstGt(s, from + 1);
      assert r.Some? ==> s[from..r.value] == [s[from]] + s[from + 1..r.value];
      assert s[from..] == [s[from]] + s[from + 1..];
      r
  }

  /**
   * The regular expression `<Text\s([^>]+)>` tried at the start of `s`: the length of the match,
   * which runs to the first '>' and holds at least one character between the whitespace and it.
   */
  function Match(s: string): (r: Option<nat>)
    ensures r.Some? ==> 8 <= r.value <= |s|
    ensures r.Some? ==> TagText(s[..r.value])
  {
    if TagStart(s) then
      match FirstGt(s, 6)
      case Some(k) =>
        if k > 6 then
          assert s[..k + 1][..5] == s[..5] && s[..k + 1][6..k] == s[6..k];
          Some(k + 1)
        else None
      case None => None
    else None
  }

  /** A whole matched tag: `<Text`, a whitespace, at least one character other than '>', then '>'. */
  predicate TagText(m: string)
  {
    |m| >= 8 && TagStart(m) && m[|m| - 1] == '>' && '>' !in m[6..|m| - 1]
  }

  /** The capture group: everything between the whitespace and the closing '>'. */
  function Attributes(m: string): string
    requires TagText(m)
  {
    m[6..|m| - 1]
  }

  predicate OccursAt(s: string, sub: string, i: nat)
  {
    i + |sub| <= |s| && s[i..i + |sub|] == sub
  }

  /** `String.prototype.includes`. */
  predicate Contains(s: string, sub: string)
  {
    exists i: nat :: i <= |s| && OccursAt(s, sub, i)
  }

  const FontAttribute: string := "font="
  /** What the callback puts between `<Text ` and the original attributes. */
  const Injected: string := "font=\"/Roboto-Regular.ttf\" "

  /** The callback: a tag that already sets a font is kept; any other gets the font before its attributes. */
  function Tag(m: string): (r: string)
    requires TagText(m)
    ensures TagText(r)
    ensures Contains(Attributes(r), FontAttribute)
    ensures Contains(Attributes(m), FontAttribute) ==> r == m
    ensures !Contains(Attributes(m), FontAttribute) ==> |r| > |m| && Attributes(r) == Injected + Attributes(m)
  {
    if Contains(Attributes(m), FontAttribute) then m
    else
      var a := Attributes(m);
      InjectedTag(a);
      "<Text " + Injected + a + ">"
  }

  /** The rewritten tag is a tag again, and its attributes now start with the font. */
  lemma InjectedTag(a: string)
    requires '>' !in a
    ensures var r := "<Text " + Injected + a + ">";
            TagText(r) && Attributes(r) == Injected + a && OccursAt(Attributes(r), FontAttribute, 0)
  {
    var r := "<Text " + Injected + a + ">";
    assert r[..5] == "<Text" && r[5] == ' ';
    assert r[6..|r| - 1] == Injected + a;
    assert '>' !in Injected;
    assert (Injected + a)[..5] == FontAttribute;
  }

  /** `content.replace(/<Text\s([^>]+)>/g, callback)`: matches are found left to right and never overlap. */
  function Rewrite(s: string): string
    decreases |s|
  {
    if s == [] then []
    else
      match Match(s)
      case Some(e) => Tag(s[..e]) + Rewrite(s[e..])
      case None => [s[0]] + Rewrite(s[1..])
  }

  /** Whether the callback set `changed`: some matched tag had no font. */
  function Changed(s: string): bool
    decreases |s|
  {
    if s == [] then false
    else
      match Match(s)
      case Some(e) => !Contains(Attributes(s[..e]), FontAttribute) || Changed(s[e..])
      case None => Changed(s[1..])
  }

  // ---------------------------------------------------------------- properties of the rewrite

  /** A rewrite never shortens the text and lengthens it exactly when some tag changed. */
  lemma {:induction false} RewriteLength(s: string)
    ensures |Rewrite(s)| >= |s|
    ensures Changed(s) <==> |Rewrite(s)| > |s|
    decreases |s|
  {
    if s != [] {
      match Match(s)
      case Some(e) => RewriteLength(s[e..]);
      case None => RewriteLength(s[1..]);
    }
  }

  /** When no tag needs a font, the rewrite is the identity. */
  lemma {:induction false} UnchangedIsIdentity(s: string)
    requires !Changed(s)
    ensures Rewrite(s) == s
    decreases |s|
  {
    if s != [] {
      match Match(s)
      case Some(e) =>
        UnchangedIsIdentity(s[e..]);
        assert s == s[..e] + s[e..];
      case None =>
        UnchangedIsIdentity(s[1..]);
        assert s == [s[0]] + s[1..];
    }
  }

  /** The script writes a file exactly when the rewrite changed its content. */
  lemma ChangedIffDifferent(s: string)
    ensures Changed(s) <==> Rewrite(s) != s
  {
    RewriteLength(s);
    if !Changed(s) {
      UnchangedIsIdentity(s);
    }
  }

  /** The rewrite keeps the first character, and the first five when there are five. */
  lemma {:induction false} RewriteKeepsHead(s: string)
    ensures |Rewrite(s)| >= |s|
    ensures |s| >= 5 ==> Rewrite(s)[..5] == s[..5]
    ensures 0 < |s| < 5 ==> Rewrite(s)[..|s|] == s
    decreases |s|
  {
    RewriteLength(s);
    if s != [] {
      match Match(s)
      case Some(e) =>
        var m := s[..e];
        assert Tag(m)[..5] == "<Text" == m[..5];
        assert Rewrite(s)[..5] == Tag(m)[..5];
        assert s[..5] == m[..5];
      case None =>
        var r := s[1..];
        RewriteKeepsHead(r);
        var t := Rewrite(r);
        assert Rewrite(s) == [s[0]] + t;
        var n := if |s| >= 5 then 5 else |s|;
        forall k | 0 <= k < n
          ensures Rewrite(s)[k] == s[k]
        {
          if k > 0 {
            if |r| >= 5 {
              assert t[..5][k - 1] == r[..5][k - 1];
            } else {
              assert t[..|r|][k - 1] == r[k - 1];
            }
          }
        }
        assert Rewrite(s)[..n] == s[..n];
        assert s[..|s|] == s;
    }
  }

  /** Without a '<' in its first n characters, the rewrite copies them. */
  lemma {:induction false} CopyPrefix(s: string, n: nat)
    requires n <= |s| && '<' !in s[..n]
    ensures Rewrite(s) == s[..n] + Rewrite(s[n..])
    decreases n
  {
    if n > 0 {
      assert s[0] in s[..n];
      assert Match(s).None?;
      assert s[1..][..n - 1] == s[1..n];
      assert '<' !in s[1..][..n - 1] by {
        assert forall c :: c in s[1..n] ==> c in s[..n];
      }
      CopyPrefix(s[1..], n - 1);
      assert s[1..][n - 1..] == s[n..];
    } else {
      assert s[..0] + Rewrite(s[0..]) == Rewrite(s);
    }
  }

  /** Text without a '>' holds no tag, so it is copied whole. */
  lemma {:induction false} NoGtUnchanged(s: string)
    requires '>' !in s
    ensures Rewrite(s) == s
    decreases |s|
  {
    if s != [] {
      assert '>' !in s[1..] by {
        assert forall c :: c in s[1..] ==> c in s;
      }
      NoGtUnchanged(s[1..]);
      assert s == [s[0]] + s[1..];
    }
  }

  /** A tag followed by anything matches exactly itself. */
  lemma MatchTagText(m: string, rest: string)
    requires TagText(m)
    ensures Match(m + rest) == Some(|m|)
    ensures (m + rest)[..|m|] == m && (m + rest)[|m|..] == rest
  {
    var s := m + rest;
    assert s[..5] == m[..5] && s[5] == m[5];
    assert s[6..|m| - 1] == m[6..|m| - 1];
    assert s[|m| - 1] == '>';
  }

  /** A position where no tag matches still matches none once the rest of the text is rewritten. */
  lemma NoMatchPreserved(s: string)
    requires s != [] && Match(s).None?
    ensures Match([s[0]] + Rewrite(s[1..])).None?
  {
    var t := [s[0]] + Rewrite(s[1..]);
    RewriteKeepsHead(s[1..]);
    if |s| >= 6 {
      assert t[..6] == s[..6] by {
        assert t[1..6] == Rewrite(s[1..])[..5] == s[1..][..5] == s[1..6];
      }
      if TagStart(t) {
        NoMatchAfterTagStart(s, t);
      }
    } else {
      NoMatchShort(s, t);
    }
  }

  /** The case where both texts start with `<Text` and a whitespace. */
  lemma NoMatchAfterTagStart(s: string, t: string)
    requires |s| >= 6 && Match(s).None? && t == [s[0]] + Rewrite(s[1..])
    requires TagStart(t) && t[..6] == s[..6]
    ensures Match(t).None?
  {
    assert TagStart(s) by {
      assert t[..5] == s[..5] && t[5] == s[5];
    }
    var rest := s[6..];
    CopiedTagStart(s);
    if |s| > 6 && s[6] == '>' {
      RewriteKeepsHead(rest);
      GtAtSix(t);
    } else {
      assert FirstGt(s, 6).None?;
      NoGtUnchanged(rest);
      assert s[..6] + rest == s;
    }
  }

  /** A '>' right after `<Text` and its whitespace leaves the group empty: no match. */
  lemma GtAtSix(t: string)
    requires |t| > 6 && t[6] == '>'
    ensures Match(t).None?
  {
    assert FirstGt(t, 6) == Some(6);
  }

  /** After a `<Text` and whitespace that begin no tag, the rewrite copies those six characters. */
  lemma CopiedTagStart(s: string)
    requires TagStart(s)
    ensures [s[0]] + Rewrite(s[1..]) == s[..6] + Rewrite(s[6..])
  {
    assert s[1..][..5] == s[1..6] == "Text" + [s[5]];
    CopyPrefix(s[1..], 5);
    assert s[1..][5..] == s[6..];
    assert [s[0]] + s[1..6] == s[..6];
  }

  /** The case of fewer than six characters: too short to hold a tag anywhere. */
  lemma NoMatchShort(s: string, t: string)
    requires 0 < |s| < 6 && Match(s).None? && t == [s[0]] + Rewrite(s[1..])
    ensures Match(t).None?
  {
    ShortUnchanged(s[1..]);
    assert t == s;
  }

  /** A tag takes at least eight characters, so shorter text is copied whole. */
  lemma {:induction false} ShortUnchanged(s: string)
    requires |s| < 8
    ensures Rewrite(s) == s
    decreases |s|
  {
    if s != [] {
      ShortUnchanged(s[1..]);
      assert s == [s[0]] + s[1..];
    }
  }

  /** Running the script twice changes nothing more: every tag left by the first pass names a font. */
  lemma {:induction false} RewriteIdempotent(s: string)
    ensures Rewrite(Rewrite(s)) == Rewrite(s)
    decreases |s|
  {
    if s != [] {
      match Match(s)
      case Some(e) =>
        var r := Tag(s[..e]);
        var y := Rewrite(s[e..]);
        RewriteIdempotent(s[e..]);
        MatchTagText(r, y);
        assert Rewrite(r + y) == Tag(r) + Rewrite(y);
      case None =>
        var y := Rewrite(s[1..]);
        RewriteIdempotent(s[1..]);
        NoMatchPreserved(s);
        assert ([s[0]] + y)[1..] == y;
    }
  }

  /** A second pass finds nothing to change, so it writes nothing. */
  lemma SecondPassWritesNothing(s: string)
    ensures !Changed(Rewrite(s))
  {
    RewriteIdempotent(s);
    ChangedIffDifferent(Rewrite(s));
  }

  // ---------------------------------------------------------------- the script

  const ScriptFiles: seq<string> := ["src/scenes/Cosmos.jsx", "src/scenes/MicroCosmos.jsx", "src/scenes/Planet.jsx", "src/scenes/BigBang.jsx"]

  /** The files on disk. */
  class Disk {
    var files: map<string, string>

    constructor (files: map<string, string>)
      ensures this.files == files
    {
      this.files := files;
    }
  }

  /**
   * One turn of the script's loop: a missing file is skipped; an existing one is rewritten
   * and written back only when the callback reported a change.
   */
  method ProcessFile(disk: Disk, path: string) returns (wrote: bool)
    modifies disk
    ensures wrote <==> path in old(disk.files) && Changed(old(disk.files[path]))
    ensures disk.files == if path in old(disk.files) then old(disk.files)[path := Rewrite(old(disk.files[path]))] else old(disk.files)
  {
    wrote := false;
    if path !in disk.files {
      return;
    }
    var content := disk.files[path];
    var changed := Changed(content);
    content := Rewrite(content);
    if changed {
      disk.files := disk.files[path := content];
      wrote := true;
    } else {
      ChangedIffDifferent(old(disk.files[path]));
      assert disk.files == disk.files[path := content];
    }
  }

  /** The disk once the files in `done` have been processed. */
  function AfterScript(files: map<string, string>, done: seq<string>): (r: map<string, string>)
    ensures r.Keys == files.Keys
  {
    map p | p in files :: if p in done then Rewrite(files[p]) else files[p]
  }

  /** Processing one more file moves the disk from one stage of the script to the next. */
  lemma AfterScriptStep(files: map<string, string>, done: seq<string>, path: string)
    ensures var before := AfterScript(files, done);
            (if path in before then before[path := Rewrite(before[path])] else before) == AfterScript(files, done + [path])
    ensures path in AfterScript(files, done) ==>
              (Changed(AfterScript(files, done)[path]) <==> path !in done && Changed(files[path]))
  {
    var before := AfterScript(files, done);
    if path in before {
      if path in done {
        RewriteIdempotent(files[path]);
        SecondPassWritesNothing(files[path]);
      }
      assert before[path := Rewrite(before[path])] == AfterScript(files, done + [path]);
    } else {
      assert before == AfterScript(files, done + [path]);
    }
  }

  /**
   * The script's loop over its file list. Returns the paths written, in order. Each listed
   * file that exists ends up rewritten (a path listed twice is rewritten once more, which
   * changes nothing), and a file is written exactly when its original content needed a font.
   */
  method ReplaceFonts(disk: Disk, paths: seq<string>) returns (written: seq<string>)
    modifies disk
    ensures disk.files == AfterScript(old(disk.files), paths)
    ensures forall p :: p in written <==> p in paths && p in old(disk.files) && Changed(old(disk.files[p]))
  {
    written := [];
    var i := 0;
    while i < |paths|
      invariant 0 <= i <= |paths|
      invariant disk.files == AfterScript(old(disk.files), paths[..i])
      invariant forall p :: p in written <==> p in paths[..i] && p in old(disk.files) && Changed(old(disk.files[p]))
    {
      var path := paths[i];
      AfterScriptStep(old(disk.files), paths[..i], path);
      var wrote := ProcessFile(disk, path);
      if wrote {
        written := written + [path];
      }
      assert paths[..i + 1] == paths[..i] + [path];
      i := i + 1;
    }
    assert paths[..i] == paths;
  }

  /** The script as shipped: its loop over the four scene files. */
  method RunScript(disk: Disk) returns (written: seq<string>)
    modifies disk
    ensures disk.files == AfterScript(old(disk.files), ScriptFiles)
    ensures forall p :: p in written <==> p in ScriptFiles && p in old(disk.files) && Changed(old(disk.files[p]))
  {
    written := ReplaceFonts(disk, ScriptFiles);
  }

  /** Running the whole script a second time writes nothing and leaves the disk as the first run did. */
  lemma ScriptIdempotent(files: map<string, string>, paths: seq<string>)
    ensures AfterScript(AfterScript(files, paths), paths) == AfterScript(files, paths)
    ensures forall p :: p in paths && p in files ==> !Changed(AfterScript(files, paths)[p])
  {
    forall p | p in files && p in paths
      ensures Rewrite(Rewrite(files[p])) == Rewrite(files[p]) && !Changed(Rewrite(files[p]))
    {
      RewriteIdempotent(files[p]);
      SecondPassWritesNothing(files[p]);
    }
  }
}
