/** Local path allocation for Drive files and workbook tabs. */
module Paths {
  import opened Wrappers
  import opened Slugs

  /** A path under the export root: its folders and its last part. */
  datatype Path = Path(folders: seq<string>, name: string)

  function SlugFolders(fold: string -> string, components: seq<string>, id: string): seq<string> {
    seq(|components|, i requires 0 <= i < |components| => Slugify(fold, components[i], id))
  }

  /** The name a file would like to have, or the same with the start of its identifier. */
  function Candidate(
    fold: string -> string, components: seq<string>, slug: string, ext: string, id: string, suffixed: bool
  ): Path {
    var stem := Slugify(fold, slug, id);
    Path(SlugFolders(fold, components, id), if suffixed then stem + "-" + Prefix(id, ID_PREFIX) + ext else stem + ext)
  }

  /**
   The plain candidate if it is free, else the one suffixed with the identifier
   prefix, else no path at all (the run stops). `slug` is slugified once more.
   */
  function ResolveLocalPath(
    fold: string -> string, components: seq<string>, slug: string, ext: string, taken: set<Path>, id: string
  ): (r: Option<Path>)
    ensures r.Some? ==> r.value !in taken
    ensures r == Some(Candidate(fold, components, slug, ext, id, false)) <==>
            Candidate(fold, components, slug, ext, id, false) !in taken
    ensures r.None? <==> Candidate(fold, components, slug, ext, id, false) in taken
                         && Candidate(fold, components, slug, ext, id, true) in taken
  {
    var plain := Candidate(fold, components, slug, ext, id, false);
    var suffixed := Candidate(fold, components, slug, ext, id, true);
    if plain !in taken then Some(plain)
    else if suffixed !in taken then Some(suffixed)
    else None
  }

  /** The file name of one tab of a workbook. */
  function TabPath(fold: string -> string, components: seq<string>, name: string, id: string, tabSlug: string): Path {
    Path(SlugFolders(fold, components, id), Slugify(fold, name, id) + "--" + tabSlug + ".md")
  }

  /** Identifiers whose prefix cannot introduce a double hyphen after a slug. */
  predicate IsPlainId(id: string) {
    var p := Prefix(id, ID_PREFIX);
    !HasDoubleHyphen(p) && (p == "" || p[0] != '-')
  }

  lemma NoEarlierHyphens(a: string, x: string, i: nat)
    requires IsNormal(a) && i < |a|
    ensures var s := a + "--" + x; !(s[i] == '-' && s[i + 1] == '-')
  {
    var s := a + "--" + x;
    assert s[i] == a[i] && (i + 1 < |a| ==> s[i + 1] == a[i + 1]);
  }

  lemma HyphensAt(b: string, y: string)
    ensures var s := b + "--" + y; s[|b|] == '-' && s[|b| + 1] == '-'
  {}

  lemma FirstDoubleHyphen(a: string, x: string, b: string, y: string)
    requires IsNormal(a) && a + "--" + x == b + "--" + y
    ensures |a| <= |b|
  {
    hide IsNormal;
    HyphensAt(b, y);
    if |b| < |a| {
      NoEarlierHyphens(a, x, |b|);
    }
  }

  /** A tab's file name determines the slug of the workbook and the slug of the tab. */
  lemma TabNameTells(a: string, x: string, b: string, y: string)
    requires IsNormal(a) && IsNormal(b) && a + "--" + x + ".md" == b + "--" + y + ".md"
    ensures a == b && x == y
  {
    hide IsNormal;
    var s, t := a + "--" + x, b + "--" + y;
    assert (s + ".md")[..|s|] == s && (t + ".md")[..|t|] == t;
    FirstDoubleHyphen(a, x, b, y);
    FirstDoubleHyphen(b, y, a, x);
    assert s[..|a|] == a && t[..|b|] == b && s[|a| + 2..] == x && t[|b| + 2..] == y;
  }

  /** Tabs of workbooks with slugs in normal form share a path only if folders, workbook slug and tab slug agree. */
  lemma TabPathsDiffer(
    fold: string -> string, c1: seq<string>, n1: string, id1: string, x: string, c2: seq<string>, n2: string, id2: string, y: string)
    requires IsNormal(Slugify(fold, n1, id1)) && IsNormal(Slugify(fold, n2, id2))
    ensures TabPath(fold, c1, n1, id1, x) == TabPath(fold, c2, n2, id2, y) <==>
            && SlugFolders(fold, c1, id1) == SlugFolders(fold, c2, id2)
            && Slugify(fold, n1, id1) == Slugify(fold, n2, id2) && x == y
  {
    hide IsNormal, Slugify, SlugFolders;
    var a, b := Slugify(fold, n1, id1), Slugify(fold, n2, id2);
    if a + "--" + x + ".md" == b + "--" + y + ".md" {
      TabNameTells(a, x, b, y);
    }
  }

  lemma TabNameHasDoubleHyphen(fold: string -> string, components: seq<string>, name: string, id: string, tabSlug: string)
    ensures HasDoubleHyphen(TabPath(fold, components, name, id, tabSlug).name)
  {
    hide Slugify, SlugFolders;
    var stem := Slugify(fold, name, id);
    var full := TabPath(fold, components, name, id, tabSlug).name;
    assert full[|stem|] == '-' && full[|stem| + 1] == '-';
  }

  /** No double hyphen inside either part, and none where they meet. */
  lemma ConcatHasNoDoubleHyphen(a: string, b: string)
    requires !HasDoubleHyphen(a) && !HasDoubleHyphen(b)
    requires a == "" || b == "" || a[|a| - 1] != '-' || b[0] != '-'
    ensures !HasDoubleHyphen(a + b)
  {
    forall i | 0 <= i < |a + b| - 1 ensures !((a + b)[i] == '-' && (a + b)[i + 1] == '-') {
      if i + 1 < |a| {
        assert (a + b)[i] == a[i] && (a + b)[i + 1] == a[i + 1];
      } else if i >= |a| {
        assert (a + b)[i] == b[i - |a|] && (a + b)[i + 1] == b[i + 1 - |a|];
      }
    }
  }

  lemma CandidatesHaveNoDoubleHyphen(stem: string, p: string, ext: string)
    requires IsNormal(stem) && !HasDoubleHyphen(p) && (p == "" || p[0] != '-')
    requires !HasDoubleHyphen(ext) && ext != "" && ext[0] != '-'
    ensures !HasDoubleHyphen(stem + ext) && !HasDoubleHyphen(stem + "-" + p + ext)
  {
    ConcatHasNoDoubleHyphen(stem, ext);
    ConcatHasNoDoubleHyphen(stem, "-");
    ConcatHasNoDoubleHyphen(stem + "-", p);
    ConcatHasNoDoubleHyphen(stem + "-" + p, ext);
  }

  lemma NormalStemHasNoDoubleHyphen(
    fold: string -> string, components: seq<string>, slug: string, ext: string, taken: set<Path>, id: string)
    requires IsNormal(Slugify(fold, slug, id)) && IsPlainId(id)
    requires !HasDoubleHyphen(ext) && ext != "" && ext[0] != '-'
    ensures var r := ResolveLocalPath(fold, components, slug, ext, taken, id);
            r.Some? ==> !HasDoubleHyphen(r.value.name)
  {
    CandidatesHaveNoDoubleHyphen(Slugify(fold, slug, id), Prefix(id, ID_PREFIX), ext);
  }

  lemma ExtensionHasNoDoubleHyphen(ext: string)
    requires ext == ".md" || ext == ".png"
    ensures !HasDoubleHyphen(ext) && ext != "" && ext[0] != '-'
  {
    assert forall i :: 0 <= i < |ext| ==> ext[i] != '-';
  }

  /** File names of documents, slides and images never contain a double hyphen. */
  lemma FileNameHasNoDoubleHyphen(
    fold: string -> string, components: seq<string>, name: string, ext: string, taken: set<Path>, id: string)
    requires IsFold(fold) && IsPlainId(id) && (ext == ".md" || ext == ".png")
    ensures var r := ResolveLocalPath(fold, components, Slugify(fold, name, id), ext, taken, id);
            r.Some? ==> !HasDoubleHyphen(r.value.name)
  {
    DoubleSlugIsNormal(fold, name, id);
    ExtensionHasNoDoubleHyphen(ext);
    NormalStemHasNoDoubleHyphen(fold, components, Slugify(fold, name, id), ext, taken, id);
  }

  /******* Image sidecars *******/

  /** Where the images of a document are written: under the folder names as they are in Drive. */
  function WrittenSidecar(components: seq<string>, stem: string): seq<string> {
    components + [stem + ".images"]
  }

  /** Where orphaned images are looked for: beside the document, under slugified folders. */
  function CleanedSidecar(fold: string -> string, components: seq<string>, id: string, stem: string): seq<string> {
    SlugFolders(fold, components, id) + [stem + ".images"]
  }

  /** Orphans are looked for where images are written exactly when every folder name is already a slug. */
  lemma SidecarsAgreeIff(fold: string -> string, components: seq<string>, id: string, stem: string)
    requires IsFold(fold)
    ensures WrittenSidecar(components, stem) == CleanedSidecar(fold, components, id, stem) <==>
            forall i :: 0 <= i < |components| ==> IsNormal(components[i])
  {
    hide Slugify, IsNormal;
    var written, cleaned := WrittenSidecar(components, stem), CleanedSidecar(fold, components, id, stem);
    forall i | 0 <= i < |components| ensures cleaned[i] == written[i] <==> IsNormal(components[i]) {
      FixedIffNormal(fold, components[i], id);
    }
  }

  /** A folder with a capital letter is enough to part them. */
  lemma CapitalPartsSidecars(fold: string -> string, id: string, stem: string)
    requires IsFold(fold)
    ensures WrittenSidecar(["A"], stem) != CleanedSidecar(fold, ["A"], id, stem)
  {
    SidecarsAgreeIff(fold, ["A"], id, stem);
    assert ["A"][0] == "A" && "A"[0] == 'A';
  }
}
