/**
 * The five manifest rewriters of the upgrade pull-request generator.
 *
 * The two Java rewrites chain global replaces; the two Python rewrites
 * replace only the first match; the Angular rewrite parses `package.json`,
 * bumps the listed Angular packages and serialises the result again.
 * JSON text itself is abstract here: a `JsonCodec` supplies the parser and
 * the two-space serialiser.
 */
module Manifests {

  import opened Wrappers
  import opened Text
  import opened Patterns
  import opened Settling

  // ---------------------------------------------------------------------
  // pom.xml

  const JavaVersionElement := Element("java.version")
  const CompilerSourceElement := Element("maven.compiler.source")
  const CompilerTargetElement := Element("maven.compiler.target")

  /** One global replace of a Java pattern by its canonical text for version `v`. */
  function JavaStep(p: Pattern, s: string, v: string): string
  {
    ReplaceAll(p, s, Canonical(p, v))
  }

  /** `updateJavaVersion`: the three pom.xml elements, in this order, each replaced globally. */
  function UpdateJavaVersion(content: string, v: string): string
  {
    JavaStep(CompilerTargetElement,
      JavaStep(CompilerSourceElement,
        JavaStep(JavaVersionElement, content, v), v), v)
  }

  // ---------------------------------------------------------------------
  // build.gradle

  const SourceCompatibility := Setting("sourceCompatibility")
  const TargetCompatibility := Setting("targetCompatibility")

  /** `updateJavaVersionInGradle`: the two Gradle settings, in this order, each replaced globally. */
  function UpdateJavaVersionInGradle(content: string, v: string): string
  {
    JavaStep(TargetCompatibility, JavaStep(SourceCompatibility, content, v), v)
  }

  // ---------------------------------------------------------------------
  // Idempotence of the Java rewrites

  lemma PomFamily()
    ensures Settles(JavaVersionElement, JavaVersionElement)
    ensures Settles(JavaVersionElement, CompilerSourceElement)
    ensures Settles(JavaVersionElement, CompilerTargetElement)
    ensures Settles(CompilerSourceElement, CompilerSourceElement)
    ensures Settles(CompilerSourceElement, CompilerTargetElement)
    ensures Settles(CompilerTargetElement, CompilerTargetElement)
  {
    DottedTag("java.version");
    DottedTag("maven.compiler.source");
    DottedTag("maven.compiler.target");
  }

  /** A tag of lower-case letters and dots is plain. */
  lemma DottedTag(t: string)
    requires |t| >= 1 && forall i :: 0 <= i < |t| ==> IsLower(t[i]) || t[i] == '.'
    ensures PlainTag(t)
  {
  }

  lemma GradleFamily()
    ensures Settles(SourceCompatibility, SourceCompatibility)
    ensures Settles(SourceCompatibility, TargetCompatibility)
    ensures Settles(TargetCompatibility, TargetCompatibility)
  {
    PlainKeys();
    SourceInterior();
    TargetInterior();
  }

  lemma PlainKeys()
    ensures PlainKey("sourceCompatibility") && PlainKey("targetCompatibility")
  {
  }

  lemma SourceInterior()
    ensures KeyInterior("sourceCompatibility", "targetCompatibility")
    ensures KeyInterior("sourceCompatibility", "sourceCompatibility")
  {
  }

  lemma TargetInterior()
    ensures KeyInterior("targetCompatibility", "sourceCompatibility")
    ensures KeyInterior("targetCompatibility", "targetCompatibility")
  {
  }

  /** Rewriting a pom.xml a second time with the same digit-only version changes nothing. */
  lemma JavaIdempotent(content: string, v: string)
    requires DigitVersion(v)
    ensures UpdateJavaVersion(UpdateJavaVersion(content, v), v) == UpdateJavaVersion(content, v)
  {
    var p1, p2, p3 := JavaVersionElement, CompilerSourceElement, CompilerTargetElement;
    PomFamily();
    var a := JavaStep(p1, content, v);
    var b := JavaStep(p2, a, v);
    var t := JavaStep(p3, b, v);
    CleanAfter(p1, p1, v, content);
    CleanAfter(p1, p2, v, a);
    CleanAfter(p2, p2, v, a);
    CleanAfter(p1, p3, v, b);
    CleanAfter(p2, p3, v, b);
    CleanAfter(p3, p3, v, b);
    assert JavaStep(p1, t, v) == t;
    assert JavaStep(p2, t, v) == t;
    assert JavaStep(p3, t, v) == t;
  }

  /** Rewriting a build.gradle a second time with the same digit-only version changes nothing. */
  lemma GradleIdempotent(content: string, v: string)
    requires DigitVersion(v)
    ensures UpdateJavaVersionInGradle(UpdateJavaVersionInGradle(content, v), v)
         == UpdateJavaVersionInGradle(content, v)
  {
    var p1, p2 := SourceCompatibility, TargetCompatibility;
    GradleFamily();
    var a := JavaStep(p1, content, v);
    var t := JavaStep(p2, a, v);
    CleanAfter(p1, p1, v, content);
    CleanAfter(p1, p2, v, a);
    CleanAfter(p2, p2, v, a);
    assert JavaStep(p1, t, v) == t;
    assert JavaStep(p2, t, v) == t;
  }

  // ---------------------------------------------------------------------
  // requirements.txt and pyproject.toml

  /** The replacement text of `updatePythonVersion`: `3.` and the second dot-separated piece of the version. */
  function RequiresPythonText(v: string): string
  {
    "python_requires=\">=3." + Render(Piece(v, '.', 1)) + "\""
  }

  /** `updatePythonVersion`: only the first `python_requires` entry is rewritten. */
  function UpdatePythonVersion(content: string, v: string): string
  {
    ReplaceFirst(RequiresPython, content, RequiresPythonText(v))
  }

  /** The replacement text of `updatePythonVersionInPyproject`. */
  function PoetryPythonText(v: string): string
  {
    "python = \"^" + v + "\""
  }

  /** `updatePythonVersionInPyproject`: only the first `python = "..."` entry is rewritten. */
  function UpdatePythonVersionInPyproject(content: string, v: string): string
  {
    ReplaceFirst(PoetryPython, content, PoetryPythonText(v))
  }

  /** A version `a.b` is written as `>=3.b`, whatever its major part `a`. */
  lemma RequiresPythonTwoPart(a: string, b: string)
    requires '.' !in a && '.' !in b
    ensures RequiresPythonText(a + "." + b) == "python_requires=\">=3." + b + "\""
  {
    assert a + "." + b == a + ['.'] + b;
    SplitPair(a, b, '.');
  }

  /** A version without a dot is written as `>=3.undefined`. */
  lemma RequiresPythonNoDot(v: string)
    requires '.' !in v
    ensures RequiresPythonText(v) == "python_requires=\">=3.undefined\""
  {
    SplitWithout(v, '.');
  }

  /** A target version `3.12` is written as `>=3.12`. */
  lemma RequiresPythonDotted()
    ensures RequiresPythonText("3.12") == "python_requires=\">=3.12\""
  {
    RequiresPythonTwoPart("3", "12");
  }

  /** A target version without a dot, such as `21`, is written as `>=3.undefined`. */
  lemma RequiresPythonUndotted()
    ensures RequiresPythonText("21") == "python_requires=\">=3.undefined\""
  {
    RequiresPythonNoDot("21");
  }

  // ---------------------------------------------------------------------
  // package.json

  /** The packages `updateAngularVersion` bumps, in the order it visits them. */
  const AngularPackages: seq<string> := [
    "@angular/core", "@angular/common", "@angular/platform-browser",
    "@angular/router", "@angular/forms", "@angular/http",
    "@angular/animations", "@angular/cli", "@angular/compiler-cli"
  ]

  /**
   * A parsed package.json as the rewrite sees it: each dependency section is
   * `None` when it is absent or falsy, and every other top-level field is
   * kept as an opaque value.
   */
  datatype PackageJson = PackageJson(
    dependencies: Option<map<string, string>>,
    devDependencies: Option<map<string, string>>,
    others: map<string, string>)

  /** The JSON parser and the two-space serialiser the rewrite relies on. */
  datatype JsonCodec = JsonCodec(
    parse: string -> Result<PackageJson>,
    stringify: PackageJson -> string)

  /** The version range every bumped package gets. */
  function AngularRange(v: string): string
  {
    "^" + v + ".0.0"
  }

  /** A dependency entry is truthy when its version string is non-empty. */
  predicate Truthy(deps: map<string, string>, pkg: string)
  {
    pkg in deps && deps[pkg] != ""
  }

  /** A dependency map after the packages of `pkgs` have been visited. */
  function BumpMap(deps: map<string, string>, pkgs: seq<string>, v: string): map<string, string>
  {
    map k | k in deps :: if k in pkgs && deps[k] != "" then AngularRange(v) else deps[k]
  }

  /** A section after the packages of `pkgs` have been visited. */
  function BumpedBy(section: Option<map<string, string>>, pkgs: seq<string>, v: string): Option<map<string, string>>
  {
    match section
    case None => None
    case Some(deps) => Some(BumpMap(deps, pkgs, v))
  }

  /** The parsed package.json once every listed package has been visited. */
  function BumpAngular(pj: PackageJson, v: string): PackageJson
  {
    pj.(dependencies := BumpedBy(pj.dependencies, AngularPackages, v),
        devDependencies := BumpedBy(pj.devDependencies, AngularPackages, v))
  }

  /** One visit of the `forEach`: a truthy entry for `pkg` becomes the range. */
  function Visit(section: Option<map<string, string>>, pkg: string, v: string): Option<map<string, string>>
  {
    match section
    case None => None
    case Some(deps) => if Truthy(deps, pkg) then Some(deps[pkg := AngularRange(v)]) else section
  }

  /** The listed packages are pairwise distinct, so no package is visited twice. */
  lemma AngularPackagesDistinct()
    ensures forall i, j :: 0 <= i < j < |AngularPackages| ==> AngularPackages[i] != AngularPackages[j]
  {
  }

  /** Visiting a package not yet visited extends the visited prefix by one. */
  lemma VisitExtends(section: Option<map<string, string>>, pkgs: seq<string>, pkg: string, v: string)
    requires pkg !in pkgs
    ensures Visit(BumpedBy(section, pkgs, v), pkg, v) == BumpedBy(section, pkgs + [pkg], v)
  {
    if section.Some? {
      VisitMapExtends(section.value, pkgs, pkg, v);
    }
  }

  lemma VisitMapExtends(deps: map<string, string>, pkgs: seq<string>, pkg: string, v: string)
    requires pkg !in pkgs
    ensures var before, after := BumpMap(deps, pkgs, v), BumpMap(deps, pkgs + [pkg], v);
      (if Truthy(before, pkg) then before[pkg := AngularRange(v)] else before) == after
  {
    var before, after := BumpMap(deps, pkgs, v), BumpMap(deps, pkgs + [pkg], v);
    assert forall k :: k in pkgs + [pkg] <==> k in pkgs || k == pkg;
    assert Truthy(before, pkg) <==> Truthy(deps, pkg);
    if Truthy(before, pkg) {
      assert before[pkg := AngularRange(v)] == after;
    } else {
      assert before == after;
    }
  }

  /** The `forEach` of `updateAngularVersion` over the listed packages. */
  method BumpAngularPackages(pj: PackageJson, v: string) returns (r: PackageJson)
    ensures r == BumpAngular(pj, v)
  {
    r := pj.(dependencies := BumpedBy(pj.dependencies, [], v),
             devDependencies := BumpedBy(pj.devDependencies, [], v));
    assert r == pj by {
      assert pj.dependencies.Some? ==> BumpedBy(pj.dependencies, [], v).value == pj.dependencies.value;
      assert pj.devDependencies.Some? ==> BumpedBy(pj.devDependencies, [], v).value == pj.devDependencies.value;
    }
    AngularPackagesDistinct();
    for i := 0 to |AngularPackages|
      invariant r == pj.(dependencies := BumpedBy(pj.dependencies, AngularPackages[..i], v),
                         devDependencies := BumpedBy(pj.devDependencies, AngularPackages[..i], v))
    {
      var pkg := AngularPackages[i];
      assert pkg !in AngularPackages[..i];
      VisitExtends(pj.dependencies, AngularPackages[..i], pkg, v);
      VisitExtends(pj.devDependencies, AngularPackages[..i], pkg, v);
      assert AngularPackages[..i + 1] == AngularPackages[..i] + [pkg];
      r := r.(dependencies := Visit(r.dependencies, pkg, v));
      r := r.(devDependencies := Visit(r.devDependencies, pkg, v));
    }
    assert AngularPackages[..|AngularPackages|] == AngularPackages;
  }

  /** `updateAngularVersion`, stated on values: a parse failure is passed on. */
  function AngularRewrite(content: string, v: string, codec: JsonCodec): (r: Result<string>)
    ensures r.Err? <==> codec.parse(content).Err?
    ensures r.Err? ==> r.message == codec.parse(content).message
  {
    match codec.parse(content)
    case Err(message) => Err(message)
    case Ok(pj) => Ok(codec.stringify(BumpAngular(pj, v)))
  }

  /**
   * With a serialiser the parser reads back, rewriting a package.json a second
   * time with the same version changes nothing.
   */
  lemma AngularRewriteIdempotent(content: string, v: string, codec: JsonCodec)
    requires forall pj :: codec.parse(codec.stringify(pj)) == Ok(pj)
    requires AngularRewrite(content, v, codec).Ok?
    ensures AngularRewrite(AngularRewrite(content, v, codec).value, v, codec) == AngularRewrite(content, v, codec)
  {
    var bumped := BumpAngular(codec.parse(content).value, v);
    assert codec.parse(codec.stringify(bumped)) == Ok(bumped);
    BumpAngularIdempotent(codec.parse(content).value, v);
  }

  /** `updateAngularVersion`: parse, bump the listed packages, serialise. */
  method UpdateAngularVersion(content: string, v: string, codec: JsonCodec) returns (r: Result<string>)
    ensures r == AngularRewrite(content, v, codec)
  {
    var parsed := codec.parse(content);
    if parsed.Err? {
      return Err(parsed.message);
    }
    var bumped := BumpAngularPackages(parsed.value, v);
    r := Ok(codec.stringify(bumped));
  }

  /**
   * What the bump does to one section: no key is added or removed, a listed
   * package with a truthy version gets the range, and every other entry
   * keeps its value.
   */
  lemma BumpedSection(section: Option<map<string, string>>, v: string)
    ensures BumpedBy(section, AngularPackages, v).Some? <==> section.Some?
    ensures section.Some? ==> var deps, after := section.value, BumpedBy(section, AngularPackages, v).value;
      && after.Keys == deps.Keys
      && (forall pkg :: pkg in AngularPackages && Truthy(deps, pkg) ==> after[pkg] == AngularRange(v))
      && (forall k :: k in deps && !(k in AngularPackages && Truthy(deps, k)) ==> after[k] == deps[k])
  {
  }

  /** Bumping an already bumped package.json changes nothing more. */
  lemma BumpAngularIdempotent(pj: PackageJson, v: string)
    ensures BumpAngular(BumpAngular(pj, v), v) == BumpAngular(pj, v)
  {
    BumpSectionIdempotent(pj.dependencies, v);
    BumpSectionIdempotent(pj.devDependencies, v);
  }

  lemma BumpSectionIdempotent(section: Option<map<string, string>>, v: string)
    ensures BumpedBy(BumpedBy(section, AngularPackages, v), AngularPackages, v) == BumpedBy(section, AngularPackages, v)
  {
    if section.Some? {
      var once := BumpedBy(section, AngularPackages, v).value;
      var twice := BumpedBy(Some(once), AngularPackages, v).value;
      assert AngularRange(v) != "";
      assert twice == once;
    }
  }
}
