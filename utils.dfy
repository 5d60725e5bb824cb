/**
 * utils.py: `slugify`, which turns a human-readable name into a
 * filesystem-safe token, and the file writes the generator and the
 * deployer perform, modelled as a set of existing paths.
 */
module Utils {
  import opened Text

  /** The characters the pattern `[^a-z0-9]+` leaves alone. */
  predicate IsSlugAlnum(c: char) {
    'a' <= c <= 'z' || '0' <= c <= '9'
  }

  predicate SlugChars(s: string) {
    forall i :: 0 <= i < |s| ==> IsSlugAlnum(s[i]) || s[i] == '-'
  }

  /** Positions `i` and `i + 1` of `s` both hold `-`. */
  predicate DashPair(s: string, i: nat)
    requires i + 1 < |s|
  {
    s[i] == '-' && s[i + 1] == '-'
  }

  predicate NoDoubleDash(s: string) {
    forall i :: 0 <= i < |s| - 1 ==> !DashPair(s, i)
  }

  predicate HasSlugAlnum(s: string) {
    exists i :: 0 <= i < |s| && IsSlugAlnum(s[i])
  }

  /** A well-formed slug: what `slugify` always returns. */
  predicate IsSlug(s: string) {
    && s != []
    && SlugChars(s)
    && s[0] != '-'
    && s[|s| - 1] != '-'
    && NoDoubleDash(s)
  }

  /** Drops the rest of a run of characters outside `[a-z0-9]`. */
  function SkipRun(s: string): (r: string)
    ensures |r| <= |s| && r == s[|s| - |r|..]
    ensures r != [] ==> IsSlugAlnum(r[0])
    ensures forall i :: 0 <= i < |s| - |r| ==> !IsSlugAlnum(s[i])
  {
    if s != [] && !IsSlugAlnum(s[0]) then
      var r := SkipRun(s[1..]);
      assert forall i :: 0 <= i < |s| - 1 ==> s[1..][i] == s[i + 1];
      r
    else s
  }

  /** `re.sub(r"[^a-z0-9]+", "-", s)`: each maximal run outside `[a-z0-9]` becomes one `-`. */
  function Collapse(s: string): string
    decreases |s|
  {
    if s == [] then []
    else if IsSlugAlnum(s[0]) then [s[0]] + Collapse(s[1..])
    else "-" + Collapse(SkipRun(s[1..]))
  }

  /** `s.lstrip("-")` */
  function TrimLeadingDashes(s: string): (r: string)
    ensures |r| <= |s| && r == s[|s| - |r|..]
    ensures r != [] ==> r[0] != '-'
    ensures forall i :: 0 <= i < |s| - |r| ==> s[i] == '-'
  {
    if s != [] && s[0] == '-' then TrimLeadingDashes(s[1..]) else s
  }

  /** `s.rstrip("-")` */
  function TrimTrailingDashes(s: string): (r: string)
    ensures |r| <= |s| && r == s[..|r|]
    ensures r != [] ==> r[|r| - 1] != '-'
    ensures forall i :: |r| <= i < |s| ==> s[i] == '-'
  {
    if s != [] && s[|s| - 1] == '-' then TrimTrailingDashes(s[..|s| - 1]) else s
  }

  /** `s.strip("-")` */
  function TrimDashes(s: string): string {
    TrimTrailingDashes(TrimLeadingDashes(s))
  }

  /** The slug before the `or "project"` fallback. */
  function SlugCore(value: string): string {
    TrimDashes(Collapse(Lower(Strip(value))))
  }

  /** `slugify(value)`: the result is always a well-formed slug. */
  function Slugify(value: string): (r: string)
    ensures IsSlug(r)
  {
    var normalized := SlugCore(value);
    SlugCoreShape(value);
    ProjectIsSlug();
    if normalized == "" then "project" else normalized
  }

  /** Before the fallback the slug is either empty or well formed. */
  lemma SlugCoreShape(value: string)
    ensures SlugCore(value) == "" || IsSlug(SlugCore(value))
  {
    var c := Collapse(Lower(Strip(value)));
    CollapseChars(Lower(Strip(value)));
    TrimDashesShape(c);
  }

  lemma {:induction false} CollapseStartsWith(s: string)
    requires s != [] && IsSlugAlnum(s[0])
    ensures Collapse(s) != [] && Collapse(s)[0] == s[0]
  {
  }

  /** Putting one more character in front of a `--`-free string over `[a-z0-9-]`. */
  lemma ConsShape(c: char, t: string)
    requires SlugChars(t) && NoDoubleDash(t)
    requires IsSlugAlnum(c) || (c == '-' && (t == [] || t[0] != '-'))
    ensures SlugChars([c] + t) && NoDoubleDash([c] + t)
  {
    var r := [c] + t;
    forall i | 0 <= i < |r| - 1 ensures !DashPair(r, i) {
      if i > 0 {
        assert r[i] == t[i - 1] && r[i + 1] == t[i];
        assert !DashPair(t, i - 1);
      }
    }
  }

  /** Every slice of a `--`-free string over `[a-z0-9-]` is one too. */
  lemma SliceShape(s: string, lo: nat, hi: nat)
    requires lo <= hi <= |s|
    requires SlugChars(s) && NoDoubleDash(s)
    ensures SlugChars(s[lo..hi]) && NoDoubleDash(s[lo..hi])
  {
    var r := s[lo..hi];
    forall i | 0 <= i < |r| - 1 ensures !DashPair(r, i) {
      assert r[i] == s[lo + i] && r[i + 1] == s[lo + i + 1];
      assert !DashPair(s, lo + i);
    }
  }

  /** The output of the substitution uses `[a-z0-9-]` only and never holds `--`. */
  lemma {:induction false} CollapseChars(s: string)
    ensures SlugChars(Collapse(s)) && NoDoubleDash(Collapse(s))
    decreases |s|
  {
    if s == [] {
    } else if IsSlugAlnum(s[0]) {
      CollapseChars(s[1..]);
      assert Collapse(s) == [s[0]] + Collapse(s[1..]);
      ConsShape(s[0], Collapse(s[1..]));
    } else {
      var t := SkipRun(s[1..]);
      CollapseChars(t);
      assert Collapse(s) == "-" + Collapse(t);
      if t != [] {
        CollapseStartsWith(t);
      }
      ConsShape('-', Collapse(t));
    }
  }

  /** The substitution keeps a letter or digit exactly when there was one. */
  lemma {:induction false} CollapseAlnum(s: string)
    ensures HasSlugAlnum(Collapse(s)) <==> HasSlugAlnum(s)
    decreases |s|
  {
    if s != [] {
      if IsSlugAlnum(s[0]) {
        assert Collapse(s) == [s[0]] + Collapse(s[1..]);
        ConsAlnum(s[0], Collapse(s[1..]));
        assert s == [s[0]] + s[1..];
        ConsAlnum(s[0], s[1..]);
      } else {
        var t := SkipRun(s[1..]);
        CollapseAlnum(t);
        assert Collapse(s) == ['-'] + Collapse(t);
        ConsAlnum('-', Collapse(t));
        SkipRunAlnum(s);
      }
    }
  }

  lemma ConsAlnum(c: char, t: string)
    ensures HasSlugAlnum([c] + t) <==> IsSlugAlnum(c) || HasSlugAlnum(t)
  {
    var r := [c] + t;
    if HasSlugAlnum(r) {
      var i :| 0 <= i < |r| && IsSlugAlnum(r[i]);
      if i > 0 {
        assert t[i - 1] == r[i];
      }
    }
    if HasSlugAlnum(t) {
      var i :| 0 <= i < |t| && IsSlugAlnum(t[i]);
      assert r[i + 1] == t[i];
    }
    if IsSlugAlnum(c) {
      assert r[0] == c;
    }
  }

  /** What the skipped run leaves is a suffix of `s` with no letter or digit before it. */
  lemma SkipRunSuffix(s: string) returns (off: nat)
    requires s != [] && !IsSlugAlnum(s[0])
    ensures off <= |s| && SkipRun(s[1..]) == s[off..]
    ensures forall i :: 0 <= i < off ==> !IsSlugAlnum(s[i])
  {
    var u := s[1..];
    var t := SkipRun(u);
    var k := |u| - |t|;
    RunAfterFirst(s, u, t, k);
    off := k + 1;
  }

  /** A suffix at `k` of `s[1..]`, reached over non-alphanumerics, is the suffix at `k + 1` of `s`. */
  lemma RunAfterFirst(s: string, u: string, t: string, k: nat)
    requires s != [] && !IsSlugAlnum(s[0]) && u == s[1..]
    requires k <= |u| && t == u[k..]
    requires forall i :: 0 <= i < k ==> !IsSlugAlnum(u[i])
    ensures t == s[k + 1..]
    ensures forall i :: 0 <= i < k + 1 ==> !IsSlugAlnum(s[i])
  {
    forall i | 0 <= i < k + 1 ensures !IsSlugAlnum(s[i]) {
      if i > 0 {
        assert s[i] == u[i - 1];
      }
    }
  }

  /** A run skipped after a non-alphanumeric first character holds no letter or digit. */
  lemma SkipRunAlnum(s: string)
    requires s != [] && !IsSlugAlnum(s[0])
    ensures HasSlugAlnum(SkipRun(s[1..])) <==> HasSlugAlnum(s)
  {
    var off := SkipRunSuffix(s);
    AlnumInSuffix(s, SkipRun(s[1..]), off);
  }

  /** A suffix of `s` after a stretch without letters or digits keeps all of them. */
  lemma AlnumInSuffix(s: string, t: string, off: nat)
    requires off <= |s| && t == s[off..]
    requires forall i :: 0 <= i < off ==> !IsSlugAlnum(s[i])
    ensures HasSlugAlnum(t) <==> HasSlugAlnum(s)
  {
    if HasSlugAlnum(s) {
      var i :| 0 <= i < |s| && IsSlugAlnum(s[i]);
      assert t[i - off] == s[i];
    }
    if HasSlugAlnum(t) {
      var j :| 0 <= j < |t| && IsSlugAlnum(t[j]);
      assert s[off + j] == t[j];
    }
  }

  /**
   * A prefix `r` of the suffix `t` of `s` that starts at `off` is the slice
   * of `s` at `off`; it ends without `-` when it does not end with one, and
   * starts without `-` when `t` does not start with one.
   */
  lemma PrefixOfSuffix(s: string, t: string, r: string, off: nat)
    requires off <= |s| && t == s[off..]
    requires |r| <= |t| && r == t[..|r|]
    requires t != [] ==> t[0] != '-'
    requires r != [] ==> r[|r| - 1] != '-'
    ensures off + |r| <= |s| && r == s[off..off + |r|]
    ensures r != [] ==> r[0] != '-' && r[|r| - 1] != '-'
  {
  }

  /** Trimming dashes from a `--`-free string over `[a-z0-9-]` leaves a slug or nothing. */
  lemma TrimDashesShape(s: string)
    requires SlugChars(s) && NoDoubleDash(s)
    ensures TrimDashes(s) == [] || IsSlug(TrimDashes(s))
  {
    var t := TrimLeadingDashes(s);
    var r := TrimTrailingDashes(t);
    var off := |s| - |t|;
    PrefixOfSuffix(s, t, r, off);
    SliceShape(s, off, off + |r|);
  }

  /** Trimming dashes leaves nothing exactly when there was no letter or digit. */
  lemma TrimDashesEmpty(s: string)
    requires SlugChars(s)
    ensures TrimDashes(s) == [] <==> !HasSlugAlnum(s)
  {
    var t := TrimLeadingDashes(s);
    var r := TrimTrailingDashes(t);
    var off := |s| - |t|;
    if r == [] {
      assert |t| == 0;
    } else {
      assert IsSlugAlnum(s[off]) by { assert s[off] == t[0] == r[0]; }
    }
  }

  /** Whitespace after position `n` of a suffix `l` of `value` is whitespace of `value`. */
  lemma SpacesInSuffix(value: string, l: string, off: nat, n: nat)
    requires off <= |value| && l == value[off..]
    requires forall i :: n <= i < |l| ==> IsSpace(l[i])
    ensures forall i :: off + n <= i < |value| ==> IsSpace(value[i])
  {
    forall i | off + n <= i < |value| ensures IsSpace(value[i]) {
      assert value[i] == l[i - off];
    }
  }

  /** `s.strip()` is a slice of `s` with only whitespace around it. */
  lemma StripSlice(value: string) returns (off: nat)
    ensures off + |Strip(value)| <= |value|
    ensures Strip(value) == value[off..off + |Strip(value)|]
    ensures forall i :: 0 <= i < off ==> IsSpace(value[i])
    ensures forall i :: off + |Strip(value)| <= i < |value| ==> IsSpace(value[i])
  {
    var l := LStrip(value);
    var s := RStrip(l);
    assert Strip(value) == s;
    off := |value| - |l|;
    assert l == value[off..];
    assert s == l[..|s|];
    SpacesInSuffix(value, l, off, |s|);
  }

  /** A character that lower-cases to a letter or digit is not whitespace. */
  lemma AlnumNotSpace(c: char)
    requires IsSlugAlnum(LowerChar(c))
    ensures !IsSpace(c)
  {
  }

  /** A non-space character lies between the whitespace that stripping removes. */
  lemma InsideStrip(value: string, off: nat, n: nat, i: nat)
    requires i < |value| && !IsSpace(value[i]) && off + n <= |value|
    requires forall j :: 0 <= j < off ==> IsSpace(value[j])
    requires forall j :: off + n <= j < |value| ==> IsSpace(value[j])
    ensures off <= i < off + n
  {
  }

  /** A letter or digit of the input survives stripping and lower-casing. */
  lemma KeepsAlnum(value: string, i: nat)
    requires i < |value| && IsSlugAlnum(LowerChar(value[i]))
    ensures HasSlugAlnum(Lower(Strip(value)))
  {
    var s := Strip(value);
    var off := StripSlice(value);
    AlnumNotSpace(value[i]);
    InsideStrip(value, off, |s|, i);
    assert s[i - off] == value[i];
    assert Lower(s)[i - off] == LowerChar(s[i - off]);
  }

  /** A letter or digit of the stripped, lower-cased text comes from one of the input. */
  lemma AlnumFromInput(value: string, j: nat)
    requires j < |Lower(Strip(value))| && IsSlugAlnum(Lower(Strip(value))[j])
    ensures exists i :: 0 <= i < |value| && IsSlugAlnum(LowerChar(value[i]))
  {
    var s := Strip(value);
    var off := StripSlice(value);
    assert s[j] == value[off + j];
    assert Lower(s)[j] == LowerChar(s[j]);
  }

  /** Stripping whitespace and lower-casing never adds or removes a character of `[a-z0-9]`. */
  lemma StripLowerKeepsAlnum(value: string)
    ensures HasSlugAlnum(Lower(Strip(value))) <==>
            exists i :: 0 <= i < |value| && IsSlugAlnum(LowerChar(value[i]))
  {
    if exists i :: 0 <= i < |value| && IsSlugAlnum(LowerChar(value[i])) {
      var i :| 0 <= i < |value| && IsSlugAlnum(LowerChar(value[i]));
      KeepsAlnum(value, i);
    }
    if HasSlugAlnum(Lower(Strip(value))) {
      var low := Lower(Strip(value));
      var j :| 0 <= j < |low| && IsSlugAlnum(low[j]);
      AlnumFromInput(value, j);
    }
  }

  /**
   * `slugify` falls back to "project" exactly when the input holds no
   * ASCII letter or digit.
   */
  lemma SlugifyFallback(value: string)
    ensures SlugCore(value) == "" <==> !exists i :: 0 <= i < |value| && IsSlugAlnum(LowerChar(value[i]))
    ensures SlugCore(value) == "" ==> Slugify(value) == "project"
    ensures SlugCore(value) != "" ==> Slugify(value) == SlugCore(value)
  {
    var y := Lower(Strip(value));
    CollapseChars(y);
    CollapseAlnum(y);
    TrimDashesEmpty(Collapse(y));
    StripLowerKeepsAlnum(value);
  }

  /** A `--`-free string over `[a-z0-9-]` passes the substitution unchanged. */
  lemma {:induction false} CollapseFixes(s: string)
    requires SlugChars(s) && NoDoubleDash(s)
    ensures Collapse(s) == s
    decreases |s|
  {
    if s != [] {
      TailShape(s);
      CollapseFixes(s[1..]);
      CollapseStep(s, s[1..]);
    }
  }

  /**
   * The tail of a `--`-free string over `[a-z0-9-]` is one too, and a
   * leading non-alphanumeric is a `-` followed by a letter or digit.
   */
  lemma TailShape(s: string)
    requires s != [] && SlugChars(s) && NoDoubleDash(s)
    ensures SlugChars(s[1..]) && NoDoubleDash(s[1..])
    ensures !IsSlugAlnum(s[0]) ==> s[0] == '-' && (s[1..] == [] || IsSlugAlnum(s[1..][0]))
  {
    SliceShape(s, 1, |s|);
    assert s[1..|s|] == s[1..];
    if |s| > 1 {
      assert !DashPair(s, 0);
      assert s[1..][0] == s[1];
    }
  }

  /** One step of the substitution on a string whose tail it leaves unchanged. */
  lemma CollapseStep(s: string, t: string)
    requires s != [] && t == s[1..] && Collapse(t) == t
    requires !IsSlugAlnum(s[0]) ==> s[0] == '-' && (t == [] || IsSlugAlnum(t[0]))
    ensures Collapse(s) == s
  {
    assert s == [s[0]] + t;
    if !IsSlugAlnum(s[0]) {
      assert SkipRun(t) == t;
    }
  }

  /** A slug is its own slug. */
  lemma SlugifyFixesSlug(s: string)
    requires IsSlug(s)
    ensures Slugify(s) == s
  {
    assert !IsSpace(s[0]) && !IsSpace(s[|s| - 1]);
    assert LStrip(s) == s && RStrip(s) == s;
    assert Lower(s) == s;
    CollapseFixes(s);
    assert TrimLeadingDashes(s) == s;
    assert TrimTrailingDashes(s) == s;
  }

  /** `slugify(slugify(x)) == slugify(x)` */
  lemma SlugifyIdempotent(value: string)
    ensures Slugify(Slugify(value)) == Slugify(value)
  {
    SlugifyFixesSlug(Slugify(value));
  }

  lemma {:induction false} LStripLower(s: string)
    ensures LStrip(Lower(s)) == Lower(LStrip(s))
    decreases |s|
  {
    if s != [] {
      var l := Lower(s);
      assert l[0] == LowerChar(s[0]);
      assert IsSpace(l[0]) == IsSpace(s[0]);
      assert l[1..] == Lower(s[1..]);
      LStripLower(s[1..]);
      if !IsSpace(s[0]) {
        assert LStrip(l) == l && LStrip(s) == s;
      }
    }
  }

  lemma {:induction false} RStripLower(s: string)
    ensures RStrip(Lower(s)) == Lower(RStrip(s))
    decreases |s|
  {
    if s != [] {
      var l := Lower(s);
      assert l[|s| - 1] == LowerChar(s[|s| - 1]);
      assert IsSpace(l[|s| - 1]) == IsSpace(s[|s| - 1]);
      assert l[..|s| - 1] == Lower(s[..|s| - 1]);
      RStripLower(s[..|s| - 1]);
      if !IsSpace(s[|s| - 1]) {
        assert RStrip(l) == l && RStrip(s) == s;
      }
    }
  }

  lemma StripLower(value: string)
    ensures Strip(Lower(value)) == Lower(Strip(value))
  {
    LStripLower(value);
    RStripLower(LStrip(value));
  }

  lemma LowerIdempotent(s: string)
    ensures Lower(Lower(s)) == Lower(s)
  {
  }

  /** Case is folded: slugifying a lower-cased name gives the same slug. */
  lemma SlugifyFoldsCase(value: string)
    ensures Slugify(Lower(value)) == Slugify(value)
  {
    StripLower(value);
    LowerIdempotent(Strip(value));
    assert SlugCore(Lower(value)) == SlugCore(value);
  }

  lemma LowerInventory()
    ensures Lower("Inventory") == "inventory"
  {
  }

  lemma ProjectIsSlug()
    ensures IsSlug("project")
  {
    var s := "project";
    assert forall i :: 0 <= i < |s| ==> 'a' <= s[i] <= 'z';
  }

  lemma InventoryIsSlug()
    ensures IsSlug("inventory")
  {
    var s := "inventory";
    assert forall i :: 0 <= i < |s| ==> 'a' <= s[i] <= 'z';
  }

  /** "Inventory" becomes "inventory". */
  lemma SlugifyInventory()
    ensures Slugify("Inventory") == "inventory"
  {
    SlugifyFoldsCase("Inventory");
    LowerInventory();
    InventoryIsSlug();
    SlugifyFixesSlug("inventory");
  }

  /** A name without letters or digits falls back to "project". */
  lemma SlugifySymbolsOnly()
    ensures Slugify("!!!") == "project"
  {
    var s := "!!!";
    assert forall i :: 0 <= i < |s| ==> s[i] == '!';
    assert forall i :: 0 <= i < |s| ==> !IsSlugAlnum(LowerChar(s[i]));
    SlugifyFallback(s);
  }

  /**
   * The file system as the set of paths that exist, and the text of the
   * files whose content the model follows.
   */
  class FileSystem {
    var paths: set<string>
    var texts: map<string, string>

    constructor (existing: set<string>)
      ensures paths == existing && texts == map[]
    {
      paths := existing;
      texts := map[];
    }

    predicate Exists(path: string)
      reads this
    {
      path in paths
    }

    /** `write_text(path, content)`: the file exists afterwards and holds the text. */
    method WriteText(path: string, content: string)
      modifies this
      ensures paths == old(paths) + {path}
      ensures texts == old(texts)[path := content]
    {
      paths := paths + {path};
      texts := texts[path := content];
    }

    /** A `write_text` of rendered text the model does not follow: the file exists afterwards. */
    method WriteRendered(path: string)
      modifies this
      ensures paths == old(paths) + {path}
      ensures texts == old(texts) - {path}
    {
      paths := paths + {path};
      texts := texts - {path};
    }

    /** `path.mkdir(parents=True, exist_ok=True)` for the directories listed. */
    method MakeDirs(dirs: set<string>)
      modifies this
      ensures paths == old(paths) + dirs
      ensures texts == old(texts)
    {
      paths := paths + dirs;
    }
  }
}
