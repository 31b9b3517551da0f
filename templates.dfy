/**
 * Template resolution (`findTemplate`) and the category listing
 * (`listTemplates`) as functions of the filesystem.  The imperative
 * versions on `Switcher.FileSystem` are proved equal to these.
 */
module Templates {
  import opened Wrappers
  import opened Layout
  import opened FileStore

  /** The first path of `ps` that exists, searching from the front. */
  function FirstExisting(disk: Disk, ps: seq<Path>): (r: Option<Path>)
    ensures r.Some? ==> r.value in ps && disk.Exists(r.value)
    ensures r.None? <==> forall i :: 0 <= i < |ps| ==> !disk.Exists(ps[i])
  {
    if ps == [] then None
    else if disk.Exists(ps[0]) then Some(ps[0])
    else FirstExisting(disk, ps[1..])
  }

  /** The answer is the existing path that every earlier path fails to beat. */
  lemma {:induction false} FirstExistingIsFirst(disk: Disk, ps: seq<Path>, i: nat)
    requires i < |ps| && disk.Exists(ps[i])
    requires forall j :: 0 <= j < i ==> !disk.Exists(ps[j])
    ensures FirstExisting(disk, ps) == Some(ps[i])
  {
    if i > 0 {
      assert !disk.Exists(ps[0]);
      FirstExistingIsFirst(disk, ps[1..], i - 1);
    }
  }

  /** `findTemplate(name)`: the flat location, then each category in order. */
  function Resolve(disk: Disk, cfg: Config, name: string): (r: Option<Path>)
    ensures r.Some? ==> r.value in Candidates(cfg, name) && disk.Exists(r.value)
    ensures r.None? <==> forall p :: p in Candidates(cfg, name) ==> !disk.Exists(p)
  {
    FirstExisting(disk, Candidates(cfg, name))
  }

  /**
   * Resolution follows the fixed search order: the flat template wins when
   * it exists; otherwise the first category holding `<name>.json` wins.
   */
  lemma ResolveOrder(disk: Disk, cfg: Config, name: string)
    ensures disk.Exists(FlatCandidate(cfg, name)) ==> Resolve(disk, cfg, name) == Some(FlatCandidate(cfg, name))
    ensures forall i :: 0 <= i < |Categories| && !disk.Exists(FlatCandidate(cfg, name))
                        && disk.Exists(CategoryCandidate(cfg, Categories[i], name))
                        && (forall j :: 0 <= j < i ==> !disk.Exists(CategoryCandidate(cfg, Categories[j], name)))
                        ==> Resolve(disk, cfg, name) == Some(CategoryCandidate(cfg, Categories[i], name))
  {
    var ps := Candidates(cfg, name);
    if disk.Exists(ps[0]) {
      FirstExistingIsFirst(disk, ps, 0);
    }
    forall i | 0 <= i < |Categories| && !disk.Exists(FlatCandidate(cfg, name))
               && disk.Exists(CategoryCandidate(cfg, Categories[i], name))
               && (forall j :: 0 <= j < i ==> !disk.Exists(CategoryCandidate(cfg, Categories[j], name)))
      ensures Resolve(disk, cfg, name) == Some(CategoryCandidate(cfg, Categories[i], name))
    {
      forall j | 0 <= j < i + 1 ensures !disk.Exists(ps[j]) {
        if j > 0 { assert ps[j] == CategoryCandidate(cfg, Categories[j - 1], name); }
      }
      FirstExistingIsFirst(disk, ps, i + 1);
    }
  }

  // ---- listing ----

  /** `file.endsWith('.json')`. */
  function IsJson(entry: string): (b: bool)
    ensures b <==> exists stem :: stem + TemplateSuffix == entry
  {
    var k := |entry| - |TemplateSuffix|;
    assert forall stem :: stem + TemplateSuffix == entry ==> stem == entry[..k] && entry[k..] == TemplateSuffix;
    assert k >= 0 && entry[k..] == TemplateSuffix ==> entry[..k] + TemplateSuffix == entry;
    |entry| >= |TemplateSuffix| && entry[|entry| - |TemplateSuffix|..] == TemplateSuffix
  }

  /** `path.basename(file, '.json')` for a directory entry that ends in `.json`. */
  function Stem(entry: string): (name: string)
    requires IsJson(entry)
    ensures name + TemplateSuffix == entry
  {
    entry[..|entry| - |TemplateSuffix|]
  }

  /** `.filter(file => file.endsWith('.json')).map(file => path.basename(file, '.json'))`. */
  function JsonStems(entries: seq<string>): (names: seq<string>)
    ensures |names| <= |entries|
  {
    if entries == [] then []
    else (if IsJson(entries[0]) then [Stem(entries[0])] else []) + JsonStems(entries[1..])
  }

  /** Filtering keeps enumeration order: it distributes over concatenation. */
  lemma {:induction false} JsonStemsAppend(a: seq<string>, b: seq<string>)
    ensures JsonStems(a + b) == JsonStems(a) + JsonStems(b)
  {
    if a == [] {
      assert a + b == b;
    } else {
      var head := if IsJson(a[0]) then [Stem(a[0])] else [];
      assert (a + b)[0] == a[0];
      assert (a + b)[1..] == a[1..] + b;
      JsonStemsAppend(a[1..], b);
      calc {
        JsonStems(a + b);
        head + JsonStems(a[1..] + b);
        head + (JsonStems(a[1..]) + JsonStems(b));
        (head + JsonStems(a[1..])) + JsonStems(b);
      }
    }
  }

  /** A name is listed exactly when `<name>.json` is an entry of the directory. */
  lemma {:induction false} JsonStemsMembers(entries: seq<string>, name: string)
    ensures name in JsonStems(entries) <==> name + TemplateSuffix in entries
  {
    var file := name + TemplateSuffix;
    assert IsJson(file) && Stem(file) == name by {
      assert file[|file| - |TemplateSuffix|..] == TemplateSuffix;
    }
    if entries != [] {
      JsonStemsMembers(entries[1..], name);
      assert entries == [entries[0]] + entries[1..];
      if IsJson(entries[0]) && Stem(entries[0]) == name {
        assert entries[0] == file;
      }
    }
  }

  /** One category header with its template names. */
  datatype Section = Section(category: string, templates: seq<string>)

  /**
   * What the listing prints: the sections, or the sections printed before
   * `readdirSync` threw on a category path that exists but is not a
   * directory (the exception is not caught; its header was printed).
   */
  datatype Listing = Listed(sections: seq<Section>) | ReadDirFailed(sections: seq<Section>, category: string)

  function Prepend(prefix: seq<Section>, l: Listing): Listing {
    match l
    case Listed(s) => Listed(prefix + s)
    case ReadDirFailed(s, c) => ReadDirFailed(prefix + s, c)
  }

  /**
   * The listing over `cats`: a category whose directory is missing is
   * skipped; each present one gives its `.json` entries, suffix stripped.
   */
  function ListFrom(disk: Disk, cfg: Config, cats: seq<string>): (l: Listing)
    ensures forall s :: s in l.sections ==>
              && s.category in cats
              && CategoryDir(cfg, s.category) in disk.dirs
              && s.templates == JsonStems(disk.dirs[CategoryDir(cfg, s.category)])
    ensures l.ReadDirFailed? ==> l.category in cats && disk.Exists(CategoryDir(cfg, l.category))
                                 && CategoryDir(cfg, l.category) !in disk.dirs
    decreases |cats|
  {
    if cats == [] then Listed([])
    else
      var dir := CategoryDir(cfg, cats[0]);
      if !disk.Exists(dir) then ListFrom(disk, cfg, cats[1..])
      else if dir !in disk.dirs then ReadDirFailed([], cats[0])
      else Prepend([Section(cats[0], JsonStems(disk.dirs[dir]))], ListFrom(disk, cfg, cats[1..]))
  }

  /** One step of the listing: what the first category contributes in front of the rest. */
  lemma ListFromCons(disk: Disk, cfg: Config, cats: seq<string>, shown: seq<Section>)
    requires cats != []
    ensures var dir := CategoryDir(cfg, cats[0]);
            var rest := ListFrom(disk, cfg, cats[1..]);
            Prepend(shown, ListFrom(disk, cfg, cats)) ==
              if !disk.Exists(dir) then Prepend(shown, rest)
              else if dir !in disk.dirs then ReadDirFailed(shown, cats[0])
              else Prepend(shown + [Section(cats[0], JsonStems(disk.dirs[dir]))], rest)
  {
    var dir := CategoryDir(cfg, cats[0]);
    if disk.Exists(dir) && dir in disk.dirs {
      var section := Section(cats[0], JsonStems(disk.dirs[dir]));
      var rest := ListFrom(disk, cfg, cats[1..]);
      assert shown + ([section] + rest.sections) == (shown + [section]) + rest.sections;
    } else if disk.Exists(dir) {
      assert shown + [] == shown;
    }
  }

  /** The categories of `cats` whose directory is present, in order. */
  function Present(disk: Disk, cfg: Config, cats: seq<string>): (r: seq<string>)
    ensures forall c :: c in r <==> c in cats && CategoryDir(cfg, c) in disk.dirs
  {
    if cats == [] then []
    else (if CategoryDir(cfg, cats[0]) in disk.dirs then [cats[0]] else []) + Present(disk, cfg, cats[1..])
  }

  /**
   * When no category path is a plain file, the listing succeeds and has
   * one section per present category, in the fixed order, each naming
   * exactly that directory's `.json` entries.
   */
  lemma {:induction false} ListingFollowsCategories(disk: Disk, cfg: Config, cats: seq<string>)
    requires forall c :: c in cats && disk.Exists(CategoryDir(cfg, c)) ==> CategoryDir(cfg, c) in disk.dirs
    ensures ListFrom(disk, cfg, cats).Listed?
    ensures var secs := ListFrom(disk, cfg, cats).sections;
            var present := Present(disk, cfg, cats);
            && |secs| == |present|
            && forall i :: 0 <= i < |secs| ==>
                 secs[i] == Section(present[i], JsonStems(disk.dirs[CategoryDir(cfg, present[i])]))
  {
    if cats != [] {
      var dir := CategoryDir(cfg, cats[0]);
      var tail := ListFrom(disk, cfg, cats[1..]);
      var rest := Present(disk, cfg, cats[1..]);
      ListingFollowsCategories(disk, cfg, cats[1..]);
      assert cats[0] in cats;
      if dir in disk.dirs {
        var head := Section(cats[0], JsonStems(disk.dirs[dir]));
        assert ListFrom(disk, cfg, cats) == Listed([head] + tail.sections);
        assert Present(disk, cfg, cats) == [cats[0]] + rest;
      } else {
        assert ListFrom(disk, cfg, cats) == tail;
        assert Present(disk, cfg, cats) == rest;
      }
    }
  }

  /**
   * Every listed name resolves: `<category>/<name>.json` is an entry of a
   * directory, so it exists and `findTemplate` finds some template for it.
   */
  lemma ListedNamesResolve(disk: Disk, cfg: Config)
    requires disk.Valid()
    ensures forall s, name :: s in ListFrom(disk, cfg, Categories).sections && name in s.templates ==>
              Resolve(disk, cfg, name).Some?
  {
    forall s, name | s in ListFrom(disk, cfg, Categories).sections && name in s.templates
      ensures Resolve(disk, cfg, name).Some?
    {
      var dir := CategoryDir(cfg, s.category);
      JsonStemsMembers(disk.dirs[dir], name);
      assert disk.Exists(Join(dir, name + TemplateSuffix));
      var i :| 0 <= i < |Categories| && Categories[i] == s.category;
      assert Candidates(cfg, name)[i + 1] == Join(dir, name + TemplateSuffix);
    }
  }
}
