/** The output layout of one binding package, its manifest, and the check that a
    directory still matches its manifest. */
module PackageLayout {
  import opened Options

  datatype Language = C | Cpp | Dotnet | Go | Java | Node | Python | Rust

  /** A path below a package root, one component per element. */
  type Path = seq<string>
  type Content = string

  /** SHA-256 is taken to be injective: a digest carries what it was computed from. */
  datatype Digest = Digest(content: Content)

  /** What a glob can hit under a package root: a regular file, or a symbolic link
      that leads to a file. */
  datatype Item = Regular(content: Content) | Symlink(content: Content)

  datatype Pattern =
    | Exact(path: Path)
    | Below(dir: Path)
    | Affix(dir: Path, prefix: string, suffix: string)

  predicate HasAffixes(name: string, prefix: string, suffix: string) {
    && |prefix| + |suffix| <= |name|
    && prefix <= name
    && name[|name| - |suffix|..] == suffix
  }

  predicate Matches(pattern: Pattern, path: Path) {
    match pattern
    case Exact(p) => path == p
    case Below(d) => d < path
    case Affix(d, prefix, suffix) =>
      |path| == |d| + 1 && d < path && HasAffixes(path[|d|], prefix, suffix)
  }

  /** The globs a package must satisfy and the files that must be among the hits. */
  datatype Layout = Layout(patterns: seq<Pattern>, required: set<Path>)

  function LayoutOf(language: Language, version: string): Layout {
    match language
    case C => Layout([Exact(["c", "zlink-c-" + version + ".tar.gz"])], {})
    case Cpp =>
      var base := ["install", "zlink-cpp", version];
      Layout([Below(base)], {base + ["include", "zlink.hpp"], base + ["lib", "libzlink_cpp.a"]})
    case Dotnet => Layout([Exact(["nuget", "Zlink." + version + ".nupkg"])], {})
    case Go => Layout([Exact(["go", "zlink-go-" + version + ".tar.gz"])], {})
    case Java =>
      var base := ["maven", "systems", "zlink", "zlink", version];
      Layout([Below(base)], {base + ["zlink-" + version + ".jar"], base + ["zlink-" + version + ".pom"]})
    case Node => Layout([Exact(["npm", "zlink-systems-zlink-" + version + ".tgz"])], {})
    case Python =>
      Layout([Affix(["python"], "zlink-" + version + "-", ".whl"),
              Exact(["python", "zlink-" + version + ".tar.gz"])], {})
    case Rust => Layout([Exact(["rust", "zlink-" + version + ".crate"])], {})
  }

  predicate Selects(layout: Layout, path: Path) {
    exists pattern :: pattern in layout.patterns && Matches(pattern, path)
  }

  predicate HasHit(items: map<Path, Item>, pattern: Pattern) {
    exists p :: p in items && Matches(pattern, p)
  }

  /** Every pattern hits something, the required files are among the hits, and no
      hit is a symbolic link. */
  predicate Complete(items: map<Path, Item>, layout: Layout) {
    && (forall pattern :: pattern in layout.patterns ==> HasHit(items, pattern))
    && (forall p :: p in layout.required ==> p in items && Selects(layout, p))
    && (forall p :: p in items && Selects(layout, p) ==> items[p].Regular?)
  }

  function SelectedDigests(items: map<Path, Item>, layout: Layout): map<Path, Digest> {
    map p | p in items && Selects(layout, p) :: Digest(items[p].content)
  }

  /** The package file map: selected paths with their digests, or an error. */
  function PackageFiles(items: map<Path, Item>, layout: Layout): Result<map<Path, Digest>> {
    if Complete(items, layout)
    then Ok(SelectedDigests(items, layout))
    else Err("Missing or irregular package file")
  }

  datatype Manifest = Manifest(version: string, files: map<Path, Digest>)

  /** A published directory: its files and, when present, its `.complete` marker.
      `builtFrom` remembers the source copy the build ran on. */
  datatype Entry<!S> = Entry(files: map<Path, Content>, marker: Option<Manifest>, builtFrom: S)

  function AsItems(files: map<Path, Content>): map<Path, Item> {
    map p | p in files :: Regular(files[p])
  }

  function Digests(files: map<Path, Content>): map<Path, Digest> {
    map p | p in files :: Digest(files[p])
  }

  /** `verify`: the marker must be readable and equal to what the directory holds now. */
  predicate Verify<S>(entry: Entry<S>, language: Language, version: string) {
    && entry.marker.Some?
    && entry.marker.value.version == version
    && PackageFiles(AsItems(entry.files), LayoutOf(language, version)) == Ok(entry.marker.value.files)
  }

  /** What the staging directory is reduced to before it is published. */
  function Selection(items: map<Path, Item>, layout: Layout): map<Path, Content> {
    map p | p in items && Selects(layout, p) :: items[p].content
  }

  /** A published directory nobody has started to remove. */
  ghost predicate Intact<S(!new)>(entry: Entry<S>, language: Language) {
    && entry.marker.Some?
    && Verify(entry, language, entry.marker.value.version)
    && entry.marker.value.files == Digests(entry.files)
  }

  /** A directory that has lost its marker or at least one file since publication. */
  ghost predicate Damaged<S(!new)>(entry: Entry<S>) {
    entry.marker.Some? ==>
      exists p :: p in entry.marker.value.files && p !in entry.files
  }

  lemma SelectionIsComplete(items: map<Path, Item>, layout: Layout)
    requires Complete(items, layout)
    ensures Complete(AsItems(Selection(items, layout)), layout)
  {
    var kept := AsItems(Selection(items, layout));
    forall pattern | pattern in layout.patterns
      ensures HasHit(kept, pattern)
    {
      assert HasHit(items, pattern);
      var p :| p in items && Matches(pattern, p);
      assert Selects(layout, p) && p in kept;
    }
  }

  lemma SelectionKeepsDigests(items: map<Path, Item>, layout: Layout)
    ensures SelectedDigests(AsItems(Selection(items, layout)), layout)
         == SelectedDigests(items, layout)
         == Digests(Selection(items, layout))
  {
    var kept := AsItems(Selection(items, layout));
    assert forall p :: p in kept <==> p in items && Selects(layout, p);
    assert SelectedDigests(kept, layout).Keys == kept.Keys;
  }

  /** Keeping only the selected files does not change the package file map, so the
      manifest written for a staging directory is the one `verify` recomputes. */
  lemma SelectionKeepsPackageFiles(items: map<Path, Item>, layout: Layout)
    requires PackageFiles(items, layout).Ok?
    ensures PackageFiles(AsItems(Selection(items, layout)), layout)
         == PackageFiles(items, layout)
         == Ok(Digests(Selection(items, layout)))
  {
    SelectionIsComplete(items, layout);
    SelectionKeepsDigests(items, layout);
  }

  /** A partially removed directory never passes `verify`. */
  lemma DamagedFailsVerify<S(!new)>(entry: Entry<S>, language: Language, version: string)
    requires Damaged(entry)
    ensures !Verify(entry, language, version)
  {
    if entry.marker.Some? {
      var missing :| missing in entry.marker.value.files && missing !in entry.files;
      var layout := LayoutOf(language, version);
      assert missing !in AsItems(entry.files);
      if Complete(AsItems(entry.files), layout) {
        assert missing !in PackageFiles(AsItems(entry.files), layout).value;
      }
    }
  }

  /** The directory below the package root that holds everything of a language. */
  function TopDirectory(language: Language): string {
    match language
    case C => "c"
    case Cpp => "install"
    case Dotnet => "nuget"
    case Go => "go"
    case Java => "maven"
    case Node => "npm"
    case Python => "python"
    case Rust => "rust"
  }

  lemma TopDirectoriesDiffer(l: Language, m: Language)
    requires TopDirectory(l) == TopDirectory(m)
    ensures l == m
  {
    assert "nuget"[0] != "maven"[0];
  }

  /** The package files of a language lie below a directory of its own. */
  lemma SelectedBelowTop(language: Language, version: string, path: Path)
    requires Selects(LayoutOf(language, version), path)
    ensures path != [] && path[0] == TopDirectory(language)
  {
  }
}
