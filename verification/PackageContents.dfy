/** What a package of each language consists of, file by file. */
module PackageContents {
  import opened Options
  import opened PackageLayout

  /** The files a package of the language must hold, with their full names; a Python package
      also needs a wheel. */
  function MustHold(language: Language, version: string): set<Path> {
    match language
    case C => {["c", "zlink-c-" + version + ".tar.gz"]}
    case Cpp =>
      {["install", "zlink-cpp", version, "include", "zlink.hpp"], ["install", "zlink-cpp", version, "lib", "libzlink_cpp.a"]}
    case Dotnet => {["nuget", "Zlink." + version + ".nupkg"]}
    case Go => {["go", "zlink-go-" + version + ".tar.gz"]}
    case Java =>
      {["maven", "systems", "zlink", "zlink", version, "zlink-" + version + ".jar"],
       ["maven", "systems", "zlink", "zlink", version, "zlink-" + version + ".pom"]}
    case Node => {["npm", "zlink-systems-zlink-" + version + ".tgz"]}
    case Python => {["python", "zlink-" + version + ".tar.gz"]}
    case Rust => {["rust", "zlink-" + version + ".crate"]}
  }

  /** The wheel of a Python version built for some platform. */
  predicate IsWheel(version: string, path: Path) {
    |path| == 2 && path[0] == "python" && HasAffixes(path[1], "zlink-" + version + "-", ".whl")
  }

  /** The files that are part of the package: the whole install tree for C++ and Java, the
      wheels for Python, and for the others nothing but the file they must hold. */
  predicate PartOf(language: Language, version: string, path: Path) {
    || path in MustHold(language, version)
    || (language.Cpp? && |path| > 3 && path[..3] == ["install", "zlink-cpp", version])
    || (language.Java? && |path| > 5 && path[..5] == ["maven", "systems", "zlink", "zlink", version])
    || (language.Python? && IsWheel(version, path))
  }

  lemma OnePatternSelects(pattern: Pattern, required: set<Path>, path: Path)
    ensures Selects(Layout([pattern], required), path) <==> Matches(pattern, path)
  {
    assert pattern in [pattern];
  }

  lemma TwoPatternsSelect(a: Pattern, b: Pattern, required: set<Path>, path: Path)
    ensures Selects(Layout([a, b], required), path) <==> Matches(a, path) || Matches(b, path)
  {
    assert [a, b][0] == a && [a, b][1] == b;
    assert a in [a, b] && b in [a, b];
  }

  lemma SelectsExactlyItsParts(language: Language, version: string, path: Path)
    ensures Selects(LayoutOf(language, version), path) <==> PartOf(language, version, path)
  {
    var layout := LayoutOf(language, version);
    if language.Python? {
      TwoPatternsSelect(layout.patterns[0], layout.patterns[1], layout.required, path);
      assert ["python"] < path ==> path[0] == "python";
      assert |path| == 2 && path[0] == "python" ==> ["python"] < path;
    } else {
      OnePatternSelects(layout.patterns[0], layout.required, path);
      if language.Cpp? { BelowIsLonger(["install", "zlink-cpp", version], path); }
      if language.Java? { BelowIsLonger(["maven", "systems", "zlink", "zlink", version], path); }
    }
  }

  lemma BelowIsLonger(dir: Path, path: Path)
    ensures Matches(Below(dir), path) <==> |path| > |dir| && path[..|dir|] == dir
  {
  }

  lemma RequiredAreNamed(language: Language, version: string)
    ensures LayoutOf(language, version).required
         == if language.Cpp? || language.Java? then MustHold(language, version) else {}
  {
    var cpp, java := ["install", "zlink-cpp", version], ["maven", "systems", "zlink", "zlink", version];
    assert cpp + ["include", "zlink.hpp"] == ["install", "zlink-cpp", version, "include", "zlink.hpp"];
    assert cpp + ["lib", "libzlink_cpp.a"] == ["install", "zlink-cpp", version, "lib", "libzlink_cpp.a"];
    assert java + ["zlink-" + version + ".jar"]
        == ["maven", "systems", "zlink", "zlink", version, "zlink-" + version + ".jar"];
    assert java + ["zlink-" + version + ".pom"]
        == ["maven", "systems", "zlink", "zlink", version, "zlink-" + version + ".pom"];
  }

  /** A Python package has a wheel. */
  predicate WheelIfPython(items: map<Path, Item>, language: Language, version: string) {
    language.Python? ==> exists p :: p in items && IsWheel(version, p)
  }

  predicate AllHit(items: map<Path, Item>, patterns: seq<Pattern>) {
    forall i :: 0 <= i < |patterns| ==> HasHit(items, patterns[i])
  }

  lemma ExactHit(items: map<Path, Item>, path: Path)
    ensures HasHit(items, Exact(path)) <==> path in items
  {
    assert Matches(Exact(path), path);
  }

  lemma BelowHit(items: map<Path, Item>, dir: Path, path: Path)
    requires path in items && dir < path
    ensures HasHit(items, Below(dir))
  {
    assert Matches(Below(dir), path);
  }

  lemma WheelHit(items: map<Path, Item>, version: string)
    ensures HasHit(items, Affix(["python"], "zlink-" + version + "-", ".whl")) <==> WheelIfPython(items, Python, version)
  {
    forall p: Path ensures Matches(Affix(["python"], "zlink-" + version + "-", ".whl"), p) <==> IsWheel(version, p) {
      assert ["python"] < p ==> p[0] == "python";
      assert |p| == 2 && p[0] == "python" ==> ["python"] < p;
    }
  }

  /** Every pattern of the language hits something and the required files are there, exactly
      if the named files and a Python wheel are there. */
  lemma HitsExactly(items: map<Path, Item>, language: Language, version: string)
    ensures var layout := LayoutOf(language, version);
      AllHit(items, layout.patterns) && layout.required <= items.Keys
      <==> MustHold(language, version) <= items.Keys && WheelIfPython(items, language, version)
  {
    var layout := LayoutOf(language, version);
    RequiredAreNamed(language, version);
    if language.Cpp? {
      var header := ["install", "zlink-cpp", version, "include", "zlink.hpp"];
      if header in items { BelowHit(items, ["install", "zlink-cpp", version], header); }
    } else if language.Java? {
      var jar := ["maven", "systems", "zlink", "zlink", version, "zlink-" + version + ".jar"];
      if jar in items { BelowHit(items, ["maven", "systems", "zlink", "zlink", version], jar); }
    } else if language.Python? {
      WheelHit(items, version);
      ExactHit(items, layout.patterns[1].path);
      assert AllHit(items, layout.patterns) <==> HasHit(items, layout.patterns[0]) && HasHit(items, layout.patterns[1]);
    } else {
      ExactHit(items, layout.patterns[0].path);
    }
  }

  ghost predicate NoLinkAmong(items: map<Path, Item>, language: Language, version: string) {
    forall p :: p in items && PartOf(language, version, p) ==> items[p].Regular?
  }

  lemma CompleteExactly(items: map<Path, Item>, layout: Layout)
    requires forall p :: p in layout.required ==> Selects(layout, p)
    ensures Complete(items, layout) <==>
      && AllHit(items, layout.patterns) && layout.required <= items.Keys
      && (forall p :: p in items && Selects(layout, p) ==> items[p].Regular?)
  {
    assert AllHit(items, layout.patterns) <==> forall pattern :: pattern in layout.patterns ==> HasHit(items, pattern);
  }

  /** A package is accepted if and only if it holds the named files, a wheel for Python, and
      no symbolic link among its parts; the file map then lists exactly the parts. */
  lemma AcceptedExactly(items: map<Path, Item>, language: Language, version: string)
    ensures var files := PackageFiles(items, LayoutOf(language, version));
      && (files.Ok? <==>
            && MustHold(language, version) <= items.Keys && WheelIfPython(items, language, version)
            && NoLinkAmong(items, language, version))
      && (files.Ok? ==> files.value == map p | p in items && PartOf(language, version, p) :: Digest(items[p].content))
  {
    var layout := LayoutOf(language, version);
    forall p ensures Selects(layout, p) <==> PartOf(language, version, p) {
      SelectsExactlyItsParts(language, version, p);
    }
    RequiredAreNamed(language, version);
    HitsExactly(items, language, version);
    CompleteExactly(items, layout);
  }
}
