/** The rule-based classifier of changed files. */
module ChangeClassifier {
  import opened Collections
  import opened Options
  import opened Text

  // ---------------------------------------------------------------- tables

  /** Unlisted stands for any category of a prior finding that no rule below produces. */
  datatype Category =
    | SecretsExposure | PaymentManipulation | Authorization | Authentication | TenantIsolation | Deserialization
    | WebhookCode | BackgroundJobs | Infrastructure | FileHandling | DataAccess | ApiSurface
    | DependencyChange | RepositoryPolicy | Unlisted

  /** Checked in this order; the first match wins. */
  const PRIORITY := [
    SecretsExposure, PaymentManipulation, Authorization, Authentication, TenantIsolation, Deserialization,
    WebhookCode, BackgroundJobs, Infrastructure, FileHandling, DataAccess, ApiSurface
  ]

  function PatternsOf(c: Category): seq<string> {
    match c
    case Authentication => ["auth", "authentication", "login", "session"]
    case Authorization => ["authorization", "permission", "role", "middleware", "admin", "polic"]
    case TenantIsolation => ["tenant", "organization", "workspace"]
    case PaymentManipulation => ["billing", "payment", "invoice", "checkout"]
    case FileHandling => ["upload", "file", "attachment"]
    case SecretsExposure => ["secret", "credential", "environment", "apikey", "api_key"]
    case Infrastructure => ["infra", "deploy", "docker", "kubernetes", "terraform"]
    case Deserialization => ["deserializ", "unmarshal", "pickle"]
    case WebhookCode => ["webhook"]
    case BackgroundJobs => ["job", "queue", "worker", "cron"]
    case ApiSurface => ["api", "route", "endpoint", "controller"]
    case DataAccess => ["database", "migration", "schema", "repository"]
    case _ => []
  }

  const MANIFESTS := {
    "package.json", "package-lock.json", "pnpm-lock.yaml", "yarn.lock", "requirements.txt", "pipfile.lock",
    "poetry.lock", "gemfile.lock", "go.sum", "go.mod", "cargo.lock", "cargo.toml", "pom.xml", "build.gradle",
    "composer.lock"
  }

  const HIGH_RISK := {
    Authentication, Authorization, TenantIsolation, PaymentManipulation, SecretsExposure, Deserialization
  }

  // ---------------------------------------------------------------- what a path means

  predicate IncludesAny(s: string, patterns: seq<string>) {
    exists i | 0 <= i < |patterns| :: Includes(s, patterns[i])
  }

  function Lowered(patterns: seq<string>): (r: seq<string>)
    ensures |r| == |patterns|
  {
    seq(|patterns|, i requires 0 <= i < |patterns| => Lower(patterns[i]))
  }

  predicate IsSensitivePath(path: string, patterns: seq<string>) { IncludesAny(Lower(path), Lowered(patterns)) }

  predicate Mentions(path: string, c: Category) { IncludesAny(Lower(path), PatternsOf(c)) }

  function Basename(path: string): string {
    var parts := Split(path, '/');
    parts[|parts| - 1]
  }

  predicate IsManifest(path: string) { Basename(Lower(path)) in MANIFESTS }

  /** The first category, by priority, that the path mentions. */
  predicate IsPatternCategory(path: string, c: Category) {
    exists k | 0 <= k < |PRIORITY| ::
      PRIORITY[k] == c && Mentions(path, c) && forall j | 0 <= j < k :: !Mentions(path, PRIORITY[j])
  }

  predicate IsPathCategory(path: string, c: Category) {
    IsPatternCategory(path, c) || (c == DependencyChange && IsManifest(path))
  }

  predicate HasCategory(path: string, overrides: seq<string>, c: Category) {
    IsPathCategory(path, c) || (c == RepositoryPolicy && IsSensitivePath(path, overrides))
  }

  /** Some changed file has the category. */
  predicate Hit(files: seq<string>, overrides: seq<string>, c: Category) {
    exists path | path in files :: HasCategory(path, overrides, c)
  }

  /** The categories of a change: those of its files. */
  function CategoriesOf(files: seq<string>, overrides: seq<string>): set<Category> {
    set c: Category | Hit(files, overrides, c)
  }

  datatype Risk = LowRisk | MediumRisk | HighRisk | CriticalRisk

  function Rank(r: Risk): nat {
    match r case LowRisk => 0 case MediumRisk => 1 case HighRisk => 2 case CriticalRisk => 3
  }

  function HighHits(categories: set<Category>, previous: set<Category>): set<Category> {
    set c | c in categories && (c in HIGH_RISK || c in previous)
  }

  function RiskOf(categories: set<Category>, previous: set<Category>): Risk {
    var high := HighHits(categories, previous);
    if categories == {} then LowRisk
    else if high == {} then MediumRisk
    else if |high| >= 3
            || (SecretsExposure in categories && (Authentication in categories || Authorization in categories))
    then CriticalRisk
    else HighRisk
  }

  // ---------------------------------------------------------------- what the tables say

  /** Which category a file is given when it mentions several: the smaller number. */
  function Precedence(c: Category): nat {
    match c
    case SecretsExposure => 0
    case PaymentManipulation => 1
    case Authorization => 2
    case Authentication => 3
    case TenantIsolation => 4
    case Deserialization => 5
    case WebhookCode => 6
    case BackgroundJobs => 7
    case Infrastructure => 8
    case FileHandling => 9
    case DataAccess => 10
    case ApiSurface => 11
    case _ => 12
  }

  lemma PlaceIs(c: Category)
    ensures Precedence(c) < 12 ==> PRIORITY[Precedence(c)] == c
    ensures |PRIORITY| == 12 && forall k | 0 <= k < 12 :: Precedence(PRIORITY[k]) == k
  {}

  /** Of the categories that the path mentions, the one that goes first. */
  lemma PatternCategoryIsFirst(path: string, c: Category)
    ensures IsPatternCategory(path, c)
            <==> Mentions(path, c) && forall d: Category | Mentions(path, d) :: Precedence(c) <= Precedence(d)
  {
    PlaceIs(c);
    OnlyPlacedAreMentioned(path, c);
    hide Mentions;
    if IsPatternCategory(path, c) {
      var k :| 0 <= k < |PRIORITY| && PRIORITY[k] == c && Mentions(path, c)
               && forall j | 0 <= j < k :: !Mentions(path, PRIORITY[j]);
      forall d: Category | Mentions(path, d) ensures Precedence(c) <= Precedence(d) {
        PlaceIs(d);
        OnlyPlacedAreMentioned(path, d);
      }
    } else if Mentions(path, c) {
      var j :| 0 <= j < Precedence(c) && Mentions(path, PRIORITY[j]);
      PlaceIs(PRIORITY[j]);
    }
  }

  lemma OnlyPlacedAreMentioned(path: string, c: Category)
    ensures Mentions(path, c) ==> Precedence(c) < 12
  {}

  /** A text that has a word has every part of it. */
  lemma PartOfWord(s: string, word: string, from: nat, part: string)
    requires Includes(s, word) && OccursAt(word, part, from)
    ensures Includes(s, part)
  {
    var i :| 0 <= i <= |s| && OccursAt(s, word, i);
    forall k | 0 <= k < |part| ensures s[i + from + k] == part[k] {
      assert s[i + from + k] == s[i..i + |word|][from + k] == word[from + k] == word[from..from + |part|][k];
    }
    assert OccursAt(s, part, i + from);
  }

  lemma AnyOfThree(s: string, a: string, b: string, c: string)
    ensures IncludesAny(s, [a, b, c]) <==> Includes(s, a) || Includes(s, b) || Includes(s, c)
  {
    hide Includes;
    var p := [a, b, c];
    assert p[0] == a && p[1] == b && p[2] == c;
  }

  lemma AnyOfFour(s: string, a: string, b: string, c: string, d: string)
    ensures IncludesAny(s, [a, b, c, d]) <==> Includes(s, a) || Includes(s, b) || Includes(s, c) || Includes(s, d)
  {
    hide Includes;
    var p := [a, b, c, d];
    assert p[0] == a && p[1] == b && p[2] == c && p[3] == d;
  }

  lemma AnyOfFive(s: string, a: string, b: string, c: string, d: string, e: string)
    ensures IncludesAny(s, [a, b, c, d, e])
            <==> Includes(s, a) || Includes(s, b) || Includes(s, c) || Includes(s, d) || Includes(s, e)
  {
    hide Includes;
    var p := [a, b, c, d, e];
    assert p[0] == a && p[1] == b && p[2] == c && p[3] == d && p[4] == e;
  }

  lemma SecretWords(path: string)
    ensures var s := Lower(path);
            Mentions(path, SecretsExposure)
            <==> Includes(s, "secret") || Includes(s, "credential") || Includes(s, "environment")
                 || Includes(s, "apikey") || Includes(s, "api_key")
  {
    AnyOfFive(Lower(path), "secret", "credential", "environment", "apikey", "api_key");
    hide Includes, IncludesAny;
  }

  lemma PaymentWords(path: string)
    ensures var s := Lower(path);
            Mentions(path, PaymentManipulation)
            <==> Includes(s, "billing") || Includes(s, "payment") || Includes(s, "invoice") || Includes(s, "checkout")
  {
    AnyOfFour(Lower(path), "billing", "payment", "invoice", "checkout");
    hide Includes, IncludesAny;
  }

  lemma AuthorizationWords(path: string)
    ensures var s := Lower(path);
            Mentions(path, Authorization)
            <==> Includes(s, "authorization") || Includes(s, "permission") || Includes(s, "role")
                 || Includes(s, "middleware") || Includes(s, "admin") || Includes(s, "polic")
  {
    hide Includes;
    var p := ["authorization", "permission", "role", "middleware", "admin", "polic"];
    assert p[0] == "authorization" && p[1] == "permission" && p[2] == "role" && p[3] == "middleware";
    assert p[4] == "admin" && p[5] == "polic";
  }

  /** `authentication` is in the table, and adds nothing to `auth`. */
  lemma AuthenticationWords(path: string)
    ensures var s := Lower(path);
            Mentions(path, Authentication) <==> Includes(s, "auth") || Includes(s, "login") || Includes(s, "session")
  {
    var s := Lower(path);
    if Includes(s, "authentication") {
      assert "authentication"[0..4] == "auth";
      PartOfWord(s, "authentication", 0, "auth");
    }
    AnyOfFour(s, "auth", "authentication", "login", "session");
    hide Includes, IncludesAny;
  }

  lemma TenantWords(path: string)
    ensures var s := Lower(path);
            Mentions(path, TenantIsolation)
            <==> Includes(s, "tenant") || Includes(s, "organization") || Includes(s, "workspace")
  {
    AnyOfThree(Lower(path), "tenant", "organization", "workspace");
    hide Includes, IncludesAny;
  }

  lemma DeserializationWords(path: string)
    ensures var s := Lower(path);
            Mentions(path, Deserialization)
            <==> Includes(s, "deserializ") || Includes(s, "unmarshal") || Includes(s, "pickle")
  {
    AnyOfThree(Lower(path), "deserializ", "unmarshal", "pickle");
    hide Includes, IncludesAny;
  }

  lemma JobWords(path: string)
    ensures var s := Lower(path);
            && (Mentions(path, WebhookCode) <==> Includes(s, "webhook"))
            && (Mentions(path, BackgroundJobs)
                <==> Includes(s, "job") || Includes(s, "queue") || Includes(s, "worker") || Includes(s, "cron"))
  {
    AnyOfFour(Lower(path), "job", "queue", "worker", "cron");
    hide Includes;
    assert ["webhook"][0] == "webhook";
  }

  lemma InfrastructureWords(path: string)
    ensures var s := Lower(path);
            Mentions(path, Infrastructure)
            <==> Includes(s, "infra") || Includes(s, "deploy") || Includes(s, "docker")
                 || Includes(s, "kubernetes") || Includes(s, "terraform")
  {
    AnyOfFive(Lower(path), "infra", "deploy", "docker", "kubernetes", "terraform");
    hide Includes, IncludesAny;
  }

  lemma FileAndDataWords(path: string)
    ensures var s := Lower(path);
            && (Mentions(path, FileHandling)
                <==> Includes(s, "upload") || Includes(s, "file") || Includes(s, "attachment"))
            && (Mentions(path, DataAccess)
                <==> Includes(s, "database") || Includes(s, "migration") || Includes(s, "schema")
                     || Includes(s, "repository"))
  {
    AnyOfThree(Lower(path), "upload", "file", "attachment");
    AnyOfFour(Lower(path), "database", "migration", "schema", "repository");
    hide Includes, IncludesAny;
  }

  lemma ApiWords(path: string)
    ensures var s := Lower(path);
            Mentions(path, ApiSurface)
            <==> Includes(s, "api") || Includes(s, "route") || Includes(s, "endpoint") || Includes(s, "controller")
  {
    AnyOfFour(Lower(path), "api", "route", "endpoint", "controller");
    hide Includes, IncludesAny;
  }

  /** The file names that are a change of dependencies, in any case and any directory. */
  lemma ManifestNames(path: string)
    ensures var name := Basename(Lower(path));
            IsManifest(path)
            <==> name == "package.json" || name == "package-lock.json" || name == "pnpm-lock.yaml"
                 || name == "yarn.lock" || name == "requirements.txt" || name == "pipfile.lock"
                 || name == "poetry.lock" || name == "gemfile.lock" || name == "go.sum" || name == "go.mod"
                 || name == "cargo.lock" || name == "cargo.toml" || name == "pom.xml" || name == "build.gradle"
                 || name == "composer.lock"
  {
    hide Basename;
  }

  predicate IsHighRisk(c: Category) {
    c == Authentication || c == Authorization || c == TenantIsolation || c == PaymentManipulation
    || c == SecretsExposure || c == Deserialization
  }

  /** The categories of the change that weigh: those of high risk, and those with findings before. */
  function Weighty(categories: set<Category>, previous: set<Category>): set<Category> {
    set c | c in categories && (IsHighRisk(c) || c in previous)
  }

  /**
   Low without any category, medium if none of them weighs, critical with three that do or with exposed
   secrets next to authentication or authorization, and high otherwise.
   */
  lemma RiskIsExact(categories: set<Category>, previous: set<Category>)
    ensures var risk := RiskOf(categories, previous);
            var weighty := Weighty(categories, previous);
            var combined := SecretsExposure in categories
                            && (Authentication in categories || Authorization in categories);
            && (risk == LowRisk <==> categories == {})
            && (risk == MediumRisk <==> categories != {} && weighty == {})
            && (risk == CriticalRisk <==> |weighty| >= 3 || combined)
            && (risk == HighRisk <==> 1 <= |weighty| <= 2 && !combined)
  {
    assert HighHits(categories, previous) == Weighty(categories, previous);
    var weighty := Weighty(categories, previous);
    if SecretsExposure in categories { assert SecretsExposure in weighty; }
    if weighty != {} {
      var c :| c in weighty;
      assert c in categories;
    }
    hide Weighty, HighHits;
  }

  // ---------------------------------------------------------------- the loops

  datatype CategoryHit = CategoryHit(category: Category, path: string)

  /** The keys of an insertion-ordered map after these hits were recorded in it. */
  function Order(log: seq<CategoryHit>): seq<Category> {
    if log == [] then [] else
    var before, c := Order(log[..|log| - 1]), log[|log| - 1].category;
    if c in before then before else before + [c]
  }

  /** The path of the first hit of the category. */
  function Example(log: seq<CategoryHit>, c: Category): string {
    if log == [] then "" else
    var before, last := log[..|log| - 1], log[|log| - 1];
    if c !in Order(before) && last.category == c then last.path else Example(before, c)
  }

  lemma RecordedOne(log: seq<CategoryHit>, hit: CategoryHit)
    ensures Order(log + [hit]) == if hit.category in Order(log) then Order(log) else Order(log) + [hit.category]
    ensures forall c: Category :: Example(log + [hit], c)
              == if c !in Order(log) && hit.category == c then hit.path else Example(log, c)
  {
    assert (log + [hit])[..|log|] == log;
  }

  lemma HasSnoc(log: seq<CategoryHit>, last: CategoryHit, c: Category)
    ensures (exists hit | hit in log + [last] :: hit.category == c)
            <==> (exists hit | hit in log :: hit.category == c) || last.category == c
  {
    if last.category == c { assert last in log + [last]; }
    if hit :| hit in log && hit.category == c { assert hit in log + [last]; }
  }

  lemma {:induction false} OrderIsTheCategories(log: seq<CategoryHit>, c: Category)
    ensures Distinct(Order(log))
    ensures c in Order(log) <==> exists hit | hit in log :: hit.category == c
    ensures c in Order(log) ==> CategoryHit(c, Example(log, c)) in log
  {
    if log == [] {
      assert Order(log) == [];
    } else {
      hide Order, Example;
      var before, last := log[..|log| - 1], log[|log| - 1];
      OrderIsTheCategories(before, c);
      OrderIsTheCategories(before, last.category);
      assert log == before + [last];
      RecordedOne(before, last);
      HasSnoc(before, last, c);
      if last.category !in Order(before) { DistinctSnoc(Order(before), last.category); }
    }
  }

  /** The map from a category to the files that hit it, which remembers the order its keys came in. */
  class CategoryHits {
    var order: seq<Category>
    var files: map<Category, seq<string>>
    ghost var log: seq<CategoryHit>

    ghost predicate Valid()
      reads this
    {
      && order == Order(log)
      && (forall c: Category :: c in order <==> c in files)
      && (forall c | c in files :: files[c] != [] && files[c][0] == Example(log, c))
    }

    constructor ()
      ensures Valid() && log == []
    {
      order, files, log := [], map[], [];
    }

    method RecordHit(category: Category, path: string)
      requires Valid()
      modifies this
      ensures Valid() && log == old(log) + [CategoryHit(category, path)]
      ensures files.Keys == old(files.Keys) + {category}
      ensures forall c | c in old(files) && c != category :: files[c] == old(files)[c]
      ensures var before := if category in old(files) then old(files)[category] else [];
              files[category] == if path in before then before else before + [path]
    {
      RecordedOne(log, CategoryHit(category, path));
      hide Order, Example;
      var paths := if category in files then files[category] else [];
      if path !in paths { paths := paths + [path]; }
      if category !in order { order := order + [category]; }
      files := files[category := paths];
      log := log + [CategoryHit(category, path)];
    }
  }

  // ---------------------------------------------------------------- what the loops record

  /** The first category from the k-th priority on that the path mentions. */
  function FirstFrom(path: string, k: nat): Option<Category>
    requires k <= |PRIORITY|
    decreases |PRIORITY| - k
  {
    if k == |PRIORITY| then None
    else if Mentions(path, PRIORITY[k]) then Some(PRIORITY[k])
    else FirstFrom(path, k + 1)
  }

  method PatternCategory(path: string) returns (r: Option<Category>)
    ensures r == FirstFrom(path, 0)
    ensures forall d: Category :: IsPatternCategory(path, d) <==> r == Some(d)
  {
    hide Mentions;
    for k := 0 to |PRIORITY|
      invariant forall j | 0 <= j < k :: !Mentions(path, PRIORITY[j])
      invariant FirstFrom(path, 0) == FirstFrom(path, k)
    {
      if Mentions(path, PRIORITY[k]) { return Some(PRIORITY[k]); }
    }
    return None;
  }

  lemma {:induction false} FirstFromIsFirst(path: string, k: nat, c: Category)
    requires k <= |PRIORITY| && forall j | 0 <= j < k :: !Mentions(path, PRIORITY[j])
    ensures FirstFrom(path, k) == Some(c) <==> IsPatternCategory(path, c)
    decreases |PRIORITY| - k
  {
    hide Mentions;
    if k < |PRIORITY| && !Mentions(path, PRIORITY[k]) {
      FirstFromIsFirst(path, k + 1, c);
    }
  }

  /** What one changed file contributes: at most one category from the table, and perhaps a dependency change. */
  function HitsOfPath(path: string): seq<CategoryHit> {
    var first := FirstFrom(path, 0);
    (if first.Some? then [CategoryHit(first.value, path)] else [])
    + if IsManifest(path) then [CategoryHit(DependencyChange, path)] else []
  }

  function HitsOfPaths(files: seq<string>): seq<CategoryHit> {
    if files == [] then [] else HitsOfPaths(files[..|files| - 1]) + HitsOfPath(files[|files| - 1])
  }

  /** The paths that match an override pattern, in order. */
  function FindSensitivePaths(paths: seq<string>, patterns: seq<string>): (r: seq<string>)
    ensures forall p :: p in r <==> p in paths && IsSensitivePath(p, patterns)
  {
    if paths == [] then []
    else
      (if IsSensitivePath(paths[0], patterns) then [paths[0]] else []) + FindSensitivePaths(paths[1..], patterns)
  }

  function PolicyHits(paths: seq<string>): (r: seq<CategoryHit>)
    ensures |r| == |paths| && forall i | 0 <= i < |r| :: r[i] == CategoryHit(RepositoryPolicy, paths[i])
  {
    seq(|paths|, i requires 0 <= i < |paths| => CategoryHit(RepositoryPolicy, paths[i]))
  }

  /** Every hit of a change, in the order in which it is recorded. */
  function AllHits(files: seq<string>, overrides: seq<string>): seq<CategoryHit> {
    HitsOfPaths(files) + PolicyHits(FindSensitivePaths(files, overrides))
  }

  lemma OnePathHits(file: string, c: Category, path: string)
    ensures CategoryHit(c, path) in HitsOfPath(file) <==> path == file && IsPathCategory(file, c)
  {
    FirstFromIsFirst(file, 0, c);
    hide FirstFrom, IsPatternCategory, IsManifest;
  }

  lemma {:induction false} PathHitsAre(files: seq<string>, c: Category, path: string)
    ensures CategoryHit(c, path) in HitsOfPaths(files) <==> path in files && IsPathCategory(path, c)
  {
    hide IsPathCategory, HitsOfPath;
    if files != [] {
      var before, last := files[..|files| - 1], files[|files| - 1];
      PathHitsAre(before, c, path);
      OnePathHits(last, c, path);
      assert files == before + [last];
    }
  }

  /** The recorded hits are exactly the changed files under their categories. */
  lemma AllHitsAre(files: seq<string>, overrides: seq<string>, c: Category, path: string)
    ensures CategoryHit(c, path) in AllHits(files, overrides) <==> path in files && HasCategory(path, overrides, c)
  {
    PathHitsAre(files, c, path);
    var sensitive := FindSensitivePaths(files, overrides);
    var policy := PolicyHits(sensitive);
    hide HitsOfPaths, IsPathCategory, IsSensitivePath, FindSensitivePaths, PolicyHits;
    if c == RepositoryPolicy && path in sensitive {
      var i :| 0 <= i < |sensitive| && sensitive[i] == path;
      assert policy[i] == CategoryHit(c, path);
    }
  }

  method CollectFile(hits: CategoryHits, path: string)
    requires hits.Valid()
    modifies hits
    ensures hits.Valid() && hits.log == old(hits.log) + HitsOfPath(path)
  {
    hide CategoryHits.Valid, FirstFrom, IsPatternCategory, IsManifest;
    var category := PatternCategory(path);
    if category.Some? { hits.RecordHit(category.value, path); }
    if IsManifest(path) { hits.RecordHit(DependencyChange, path); }
  }

  method CollectHits(files: seq<string>, overrides: seq<string>) returns (hits: CategoryHits)
    ensures fresh(hits) && hits.Valid() && hits.log == AllHits(files, overrides)
  {
    hits := new CategoryHits();
    hide CategoryHits.Valid, HitsOfPath;
    for i := 0 to |files|
      invariant fresh(hits) && hits.Valid()
      invariant hits.log == HitsOfPaths(files[..i])
    {
      assert files[..i + 1][..i] == files[..i];
      CollectFile(hits, files[i]);
    }
    assert files[..|files|] == files;
    if overrides != [] {
      var sensitive := FindSensitivePaths(files, overrides);
      for i := 0 to |sensitive|
        invariant fresh(hits) && hits.Valid()
        invariant hits.log == HitsOfPaths(files) + PolicyHits(sensitive[..i])
      {
        hits.RecordHit(RepositoryPolicy, sensitive[i]);
        assert PolicyHits(sensitive[..i + 1])
            == PolicyHits(sensitive[..i]) + [CategoryHit(RepositoryPolicy, sensitive[i])];
      }
      assert sensitive[..|sensitive|] == sensitive;
    } else {
      NoOverrides(files);
    }
  }

  lemma {:induction false} NoOverrides(files: seq<string>)
    ensures FindSensitivePaths(files, []) == []
  {
    if files != [] { NoOverrides(files[1..]); }
  }

  /** The filtered keys are as many as the filtered set has elements. */
  method SelectHigh(categories: seq<Category>, previous: set<Category>) returns (high: seq<Category>)
    requires Distinct(categories)
    ensures |high| == |HighHits(SetOf(categories), previous)|
  {
    high := [];
    for i := 0 to |categories|
      invariant Distinct(high)
      invariant SetOf(high) == HighHits(SetOf(categories[..i]), previous)
    {
      var c := categories[i];
      assert categories[..i + 1] == categories[..i] + [c];
      assert c !in SetOf(categories[..i]) && SetOf(categories[..i + 1]) == SetOf(categories[..i]) + {c};
      assert c !in SetOf(high) && SetOf(high + [c]) == SetOf(high) + {c};
      if c in HIGH_RISK || c in previous { high := high + [c]; }
    }
    assert categories[..|categories|] == categories;
    DistinctSize(high);
  }

  datatype Reason = Touches(category: Category, example: string) | SeenBefore(category: Category) | NothingMatched

  datatype Classification = Classification(
    risk: Risk, securitySensitive: bool, categories: seq<Category>, reviewDiff: bool, needsPreview: bool,
    reasons: seq<Reason>)

  /** For each category in turn its first file, and the recurrence if there were findings of it before. */
  function ReasonsFor(order: seq<Category>, log: seq<CategoryHit>, previous: set<Category>): seq<Reason> {
    if order == [] then [] else
    var c := order[|order| - 1];
    ReasonsFor(order[..|order| - 1], log, previous) + [Touches(c, Example(log, c))]
    + if c in previous then [SeenBefore(c)] else []
  }

  function Explained(log: seq<CategoryHit>, previous: set<Category>): seq<Reason> {
    if Order(log) == [] then [NothingMatched] else ReasonsFor(Order(log), log, previous)
  }

  method ExplainHits(hits: CategoryHits, previous: set<Category>) returns (reasons: seq<Reason>)
    requires hits.Valid()
    ensures reasons == Explained(hits.log, previous)
  {
    hide Order, Example;
    reasons := [];
    for i := 0 to |hits.order|
      invariant reasons == ReasonsFor(hits.order[..i], hits.log, previous)
      invariant reasons == [] <==> i == 0
    {
      var c := hits.order[i];
      assert hits.order[..i + 1][..i] == hits.order[..i];
      reasons := reasons + [Touches(c, hits.files[c][0])];
      if c in previous { reasons := reasons + [SeenBefore(c)]; }
    }
    assert hits.order[..|hits.order|] == hits.order;
    if reasons == [] { reasons := [NothingMatched]; }
  }

  lemma {:induction false} ReasonsAre(order: seq<Category>, log: seq<CategoryHit>, previous: set<Category>, r: Reason)
    ensures r in ReasonsFor(order, log, previous)
       <==> match r
            case Touches(c, p) => c in order && p == Example(log, c)
            case SeenBefore(c) => c in order && c in previous
            case NothingMatched => false
  {
    if order != [] {
      var before, c := order[..|order| - 1], order[|order| - 1];
      ReasonsAre(before, log, previous, r);
      assert order == before + [c];
      hide Example;
    }
  }

  /**
   Every reason names a category of the change with a changed file that has it, or a category of the
   change with prior findings; and every category, and every recurrence, is named.
   */
  lemma ReasonsAreGrounded(files: seq<string>, overrides: seq<string>, previous: set<Category>, c: Category)
    ensures var log := AllHits(files, overrides);
            var reasons := Explained(log, previous);
            && (c in CategoriesOf(files, overrides) <==> Touches(c, Example(log, c)) in reasons)
            && (c in CategoriesOf(files, overrides) && c in previous <==> SeenBefore(c) in reasons)
            && (NothingMatched in reasons <==> CategoriesOf(files, overrides) == {})
            && (forall p :: Touches(c, p) in reasons ==> p in files && HasCategory(p, overrides, c))
  {
    var log := AllHits(files, overrides);
    OrderIsTheCategories(log, c);
    CategoriesAreTheOrder(files, overrides);
    AllHitsAre(files, overrides, c, Example(log, c));
    var order := Order(log);
    hide AllHits, Order, Example, CategoriesOf, HasCategory;
    ReasonsAre(order, log, previous, SeenBefore(c));
    ReasonsAre(order, log, previous, NothingMatched);
    forall p ensures Touches(c, p) in ReasonsFor(order, log, previous) <==> c in order && p == Example(log, c) {
      ReasonsAre(order, log, previous, Touches(c, p));
    }
    if order != [] { assert order[0] in SetOf(order); }
  }

  lemma CategoriesAreTheOrder(files: seq<string>, overrides: seq<string>)
    ensures SetOf(Order(AllHits(files, overrides))) == CategoriesOf(files, overrides)
    ensures Distinct(Order(AllHits(files, overrides)))
  {
    var log := AllHits(files, overrides);
    OrderIsTheCategories(log, Unlisted);
    forall c: Category ensures c in Order(log) <==> Hit(files, overrides, c) {
      OrderIsTheCategories(log, c);
      HitsAreLogged(files, overrides, c);
    }
    hide AllHits, Order, Hit;
  }

  lemma HitsAreLogged(files: seq<string>, overrides: seq<string>, c: Category)
    ensures (exists hit | hit in AllHits(files, overrides) :: hit.category == c) <==> Hit(files, overrides, c)
  {
    hide AllHits, HasCategory;
    if hit :| hit in AllHits(files, overrides) && hit.category == c {
      assert hit == CategoryHit(c, hit.path);
      AllHitsAre(files, overrides, c, hit.path);
    }
    if path :| path in files && HasCategory(path, overrides, c) {
      AllHitsAre(files, overrides, c, path);
      assert CategoryHit(c, path).category == c;
    }
  }

  method ClassifyChange(files: seq<string>, overrides: seq<string>, previousCategories: seq<Category>)
    returns (r: Classification)
    ensures SetOf(r.categories) == CategoriesOf(files, overrides) && Distinct(r.categories)
    ensures r.risk == RiskOf(CategoriesOf(files, overrides), SetOf(previousCategories))
    ensures r.securitySensitive <==> r.risk != LowRisk
    ensures r.reviewDiff == r.securitySensitive
    ensures r.needsPreview <==> Rank(r.risk) >= Rank(HighRisk)
    ensures r.categories == Order(AllHits(files, overrides))
    ensures r.reasons == Explained(AllHits(files, overrides), SetOf(previousCategories))
  {
    var hits := CollectHits(files, overrides);
    var previous := SetOf(previousCategories);
    CategoriesAreTheOrder(files, overrides);
    hide AllHits, Order, Explained, CategoriesOf;
    var categories := hits.order;
    var reasons := ExplainHits(hits, previous);
    var securitySensitive := |categories| > 0;
    var high := SelectHigh(categories, previous);
    assert securitySensitive <==> SetOf(categories) != {} by {
      if securitySensitive { assert categories[0] in SetOf(categories); }
    }
    var risk;
    if !securitySensitive {
      risk := LowRisk;
    } else if |high| == 0 {
      risk := MediumRisk;
    } else {
      var secrets := SecretsExposure in categories;
      var authCombo := Authentication in categories || Authorization in categories;
      risk := if |high| >= 3 || (secrets && authCombo) then CriticalRisk else HighRisk;
    }
    r := Classification(risk, securitySensitive, categories, securitySensitive,
                        risk == CriticalRisk || risk == HighRisk, reasons);
  }

  // ---------------------------------------------------------------- order does not matter, more never lowers the risk

  /** At most one of a file's categories comes from the pattern table, and it is the first by priority. */
  lemma OnePatternCategory(path: string, c: Category, d: Category)
    requires IsPatternCategory(path, c) && Mentions(path, d) && d in PRIORITY
    ensures exists i, j | 0 <= i <= j < |PRIORITY| :: PRIORITY[i] == c && PRIORITY[j] == d
    ensures IsPatternCategory(path, d) ==> c == d
  {
    hide Mentions, IsPatternCategory;
    PlaceIs(c);
    PlaceIs(d);
    OnlyPlacedAreMentioned(path, c);
    OnlyPlacedAreMentioned(path, d);
    PatternCategoryIsFirst(path, c);
    PatternCategoryIsFirst(path, d);
    assert PRIORITY[Precedence(c)] == c && PRIORITY[Precedence(d)] == d;
  }

  lemma OrderDoesNotMatter(files: seq<string>, shuffled: seq<string>, overrides: seq<string>, previous: set<Category>)
    requires multiset(files) == multiset(shuffled)
    ensures CategoriesOf(shuffled, overrides) == CategoriesOf(files, overrides)
    ensures RiskOf(CategoriesOf(shuffled, overrides), previous) == RiskOf(CategoriesOf(files, overrides), previous)
  {
    forall path ensures path in files <==> path in shuffled {
      assert path in files <==> path in multiset(files);
      assert path in shuffled <==> path in multiset(shuffled);
    }
    hide HasCategory;
    assert forall c: Category :: Hit(files, overrides, c) <==> Hit(shuffled, overrides, c);
  }

  lemma RiskNeverFalls(
      files: seq<string>, overrides: seq<string>, previous: set<Category>,
      moreFiles: seq<string>, moreOverrides: seq<string>, morePrevious: set<Category>)
    requires SetOf(files) <= SetOf(moreFiles)
    requires SetOf(overrides) <= SetOf(moreOverrides)
    requires previous <= morePrevious
    ensures CategoriesOf(files, overrides) <= CategoriesOf(moreFiles, moreOverrides)
    ensures Rank(RiskOf(CategoriesOf(files, overrides), previous))
         <= Rank(RiskOf(CategoriesOf(moreFiles, moreOverrides), morePrevious))
  {
    forall c | c in CategoriesOf(files, overrides) ensures c in CategoriesOf(moreFiles, moreOverrides) {
      hide IsPathCategory, IsSensitivePath;
      var path :| path in files && HasCategory(path, overrides, c);
      MorePatterns(path, overrides, moreOverrides);
      assert path in SetOf(files);
      assert path in moreFiles && HasCategory(path, moreOverrides, c);
    }
    hide CategoriesOf;
    MoreCategories(CategoriesOf(files, overrides), CategoriesOf(moreFiles, moreOverrides), previous, morePrevious);
  }

  lemma MorePatterns(path: string, overrides: seq<string>, moreOverrides: seq<string>)
    requires SetOf(overrides) <= SetOf(moreOverrides)
    ensures IsSensitivePath(path, overrides) ==> IsSensitivePath(path, moreOverrides)
  {
    if IsSensitivePath(path, overrides) {
      hide Includes;
      var i :| 0 <= i < |overrides| && Includes(Lower(path), Lowered(overrides)[i]);
      assert overrides[i] in SetOf(overrides);
      var j :| 0 <= j < |moreOverrides| && moreOverrides[j] == overrides[i];
      assert Lowered(moreOverrides)[j] == Lowered(overrides)[i];
    }
  }

  lemma MoreCategories(some: set<Category>, more: set<Category>, previous: set<Category>, morePrevious: set<Category>)
    requires some <= more && previous <= morePrevious
    ensures Rank(RiskOf(some, previous)) <= Rank(RiskOf(more, morePrevious))
  {
    var high, moreHigh := HighHits(some, previous), HighHits(more, morePrevious);
    assert high <= moreHigh;
    SubsetSize(high, moreHigh);
  }
}
