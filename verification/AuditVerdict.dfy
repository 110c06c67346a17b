/** The verdict of the audit: findings against the index of exceptions. */
module AuditVerdict {
  import opened Wrappers
  import opened AuditParser

  // ---------- Findings ----------

  /** A JSON scalar: null or absent, a string, or a number. */
  datatype Scalar = Null | Text(s: string) | Number(n: int)

  predicate Truthy(x: Scalar) {
    match x
    case Null => false
    case Text(s) => s != ""
    case Number(n) => n != 0
  }

  function Or(x: Scalar, y: Scalar): Scalar {
    if Truthy(x) then x else y
  }

  datatype Advisory = Advisory(moduleName: Scalar, name: Scalar, severity: Option<string>, githubID: Scalar, url: Scalar,
                               cves: seq<Scalar>, id: Scalar, title: Scalar, advisory: Scalar, overview: Scalar)

  /** An element of a `via` list: an object, a string, or anything else. */
  datatype Item = Object(githubID: Scalar, url: Scalar, source: Scalar, title: Scalar, name: Scalar) | Named(s: string) | Other

  datatype Via = Items(items: seq<Item>) | Single(s: string) | Neither

  datatype Vulnerability = Vulnerability(name: string, severity: Option<string>, via: Via)

  /** The two shapes of an audit report; a report may have either, both or none. */
  datatype Audit = Audit(advisories: Option<seq<Advisory>>, vulnerabilities: Option<seq<Vulnerability>>)

  datatype Finding = Finding(name: Scalar, severity: Option<string>, id: Scalar)

  /** What the checker calls: lower-casing, date parsing, printing of numbers, and the day. */
  datatype Environment = Environment(lower: string -> string, date: string -> Option<int>, show: int -> string, today: int)

  /** The first value that is truthy, or the last value. */
  function AnyOf(xs: seq<Scalar>): Scalar {
    if xs == [] then Null else if |xs| == 1 then xs[0] else Or(xs[0], AnyOf(xs[1..]))
  }

  /** The first identifier that is there, most stable first. Id 0 counts; other falsy values do not. */
  function AdvisoryID(env: Environment, a: Advisory): Scalar {
    var cve := if a.cves == [] then Null else a.cves[0];
    var id := match a.id
              case Null => Null
              case Text(s) => a.id
              case Number(n) => Text(env.show(n));
    AnyOf([a.githubID, a.url, cve, id, a.title, a.advisory, a.overview])
  }

  function ItemID(i: Item): Scalar {
    match i
    case Object(githubID, url, source, title, name) => AnyOf([githubID, url, source, title, name])
    case Named(s) => Text(s)
    case Other => Null
  }

  function ViaItems(v: Via): seq<Item> {
    match v
    case Items(items) => items
    case Single(s) => [Named(s)]
    case Neither => []
  }

  function AdvisoryFindings(env: Environment, advisories: seq<Advisory>): seq<Finding> {
    seq(|advisories|, i requires 0 <= i < |advisories| =>
      var a := advisories[i]; Finding(Or(a.moduleName, a.name), a.severity, AdvisoryID(env, a)))
  }

  function CauseFindings(v: Vulnerability, items: seq<Item>): seq<Finding> {
    if items == [] then []
    else
      var front, i := CauseFindings(v, items[..|items| - 1]), items[|items| - 1];
      if Truthy(ItemID(i)) then front + [Finding(Text(v.name), v.severity, ItemID(i))] else front
  }

  function VulnerabilityFindings(vs: seq<Vulnerability>): seq<Finding> {
    if vs == [] then []
    else
      var v := vs[|vs| - 1];
      VulnerabilityFindings(vs[..|vs| - 1]) + CauseFindings(v, ViaItems(v.via))
  }

  /** All findings of a report: one per advisory, then one per identified cause of each vulnerability. */
  function Findings(env: Environment, audit: Audit): seq<Finding> {
    (if audit.advisories.Some? then AdvisoryFindings(env, audit.advisories.value) else [])
    + (if audit.vulnerabilities.Some? then VulnerabilityFindings(audit.vulnerabilities.value) else [])
  }

  lemma {:induction false} CausesComplete(v: Vulnerability, items: seq<Item>, f: Finding)
    ensures f in CauseFindings(v, items)
       <==> exists i :: i in items && Truthy(ItemID(i)) && f == Finding(Text(v.name), v.severity, ItemID(i))
  {
    if items != [] {
      CausesComplete(v, items[..|items| - 1], f);
      assert items == items[..|items| - 1] + [items[|items| - 1]];
    }
  }

  ghost predicate CauseOf(v: Vulnerability, f: Finding) {
    exists i :: i in ViaItems(v.via) && Truthy(ItemID(i)) && f == Finding(Text(v.name), v.severity, ItemID(i))
  }

  lemma {:induction false} VulnerabilitiesComplete(vs: seq<Vulnerability>, f: Finding)
    ensures f in VulnerabilityFindings(vs) <==> exists v :: v in vs && CauseOf(v, f)
  {
    if vs != [] {
      var v := vs[|vs| - 1];
      VulnerabilitiesComplete(vs[..|vs| - 1], f);
      CausesComplete(v, ViaItems(v.via), f);
      assert f in CauseFindings(v, ViaItems(v.via)) <==> CauseOf(v, f);
      assert vs == vs[..|vs| - 1] + [v];
    }
  }

  /** The finding of some advisory of the report. */
  ghost predicate AdvisoryFinding(env: Environment, audit: Audit, f: Finding) {
    audit.advisories.Some?
    && exists a :: a in audit.advisories.value && f == Finding(Or(a.moduleName, a.name), a.severity, AdvisoryID(env, a))
  }

  /** The finding of some identified cause of some vulnerability of the report. */
  ghost predicate ViaFinding(audit: Audit, f: Finding) {
    audit.vulnerabilities.Some? && exists v :: v in audit.vulnerabilities.value && CauseOf(v, f)
  }

  /** No advisory is skipped, and of the causes of a vulnerability only those without any identifier. */
  lemma {:induction false} FindingsComplete(env: Environment, audit: Audit, f: Finding)
    ensures f in Findings(env, audit) <==> AdvisoryFinding(env, audit, f) || ViaFinding(audit, f)
  {
    if audit.vulnerabilities.Some? {
      VulnerabilitiesComplete(audit.vulnerabilities.value, f);
    }
    if audit.advisories.Some? {
      var advisories := audit.advisories.value;
      assert f in AdvisoryFindings(env, advisories) ==>
          exists i :: 0 <= i < |advisories| && advisories[i] in advisories && f == AdvisoryFindings(env, advisories)[i];
      forall a | a in advisories && f == Finding(Or(a.moduleName, a.name), a.severity, AdvisoryID(env, a))
        ensures f in AdvisoryFindings(env, advisories)
      {
        var i :| 0 <= i < |advisories| && advisories[i] == a;
        assert AdvisoryFindings(env, advisories)[i] == f;
      }
    }
  }

  method IterVulns(env: Environment, audit: Audit) returns (findings: seq<Finding>)
    ensures findings == Findings(env, audit)
  {
    findings := [];
    if audit.advisories.Some? {
      findings := IterAdvisories(env, audit.advisories.value);
    }
    if audit.vulnerabilities.Some? {
      var more := IterVulnerabilities(audit.vulnerabilities.value);
      findings := findings + more;
    }
  }

  method IterAdvisories(env: Environment, advisories: seq<Advisory>) returns (findings: seq<Finding>)
    ensures findings == AdvisoryFindings(env, advisories)
  {
    findings := [];
    for i := 0 to |advisories|
      invariant findings == AdvisoryFindings(env, advisories)[..i]
    {
      var a := advisories[i];
      findings := findings + [Finding(Or(a.moduleName, a.name), a.severity, AdvisoryID(env, a))];
    }
  }

  method IterVulnerabilities(vs: seq<Vulnerability>) returns (findings: seq<Finding>)
    ensures findings == VulnerabilityFindings(vs)
  {
    findings := [];
    for i := 0 to |vs|
      invariant findings == VulnerabilityFindings(vs[..i])
    {
      assert vs[..i + 1][..i] == vs[..i];
      var more := IterCauses(vs[i]);
      findings := findings + more;
    }
    assert vs[..|vs|] == vs;
  }

  method IterCauses(v: Vulnerability) returns (findings: seq<Finding>)
    ensures findings == CauseFindings(v, ViaItems(v.via))
  {
    findings := [];
    var items := ViaItems(v.via);
    for k := 0 to |items|
      invariant findings == CauseFindings(v, items[..k])
    {
      assert items[..k + 1][..k] == items[..k];
      if Truthy(ItemID(items[k])) {
        findings := findings + [Finding(Text(v.name), v.severity, ItemID(items[k]))];
      }
    }
    assert items[..|items|] == items;
  }

  // ---------- Identifiers ----------

  /** Position `k` holds the first value that is there: not null, not the empty string and not zero. */
  ghost predicate FirstThere(xs: seq<Scalar>, k: nat) {
    && k < |xs| && xs[k] != Null && xs[k] != Text("") && xs[k] != Number(0)
    && forall j :: 0 <= j < k ==> xs[j] == Null || xs[j] == Text("") || xs[j] == Number(0)
  }

  lemma {:induction false} AnyOfIsFirst(xs: seq<Scalar>, k: nat)
    requires FirstThere(xs, k)
    ensures AnyOf(xs) == xs[k]
    decreases k
  {
    if k > 0 {
      assert forall j :: 0 <= j < |xs| - 1 ==> xs[1..][j] == xs[j + 1];
      AnyOfIsFirst(xs[1..], k - 1);
    }
  }

  lemma {:induction false} AnyOfNone(xs: seq<Scalar>)
    requires forall j :: 0 <= j < |xs| ==> !Truthy(xs[j])
    ensures !Truthy(AnyOf(xs))
    decreases |xs|
  {
    if |xs| > 1 {
      assert forall j :: 0 <= j < |xs| - 1 ==> xs[1..][j] == xs[j + 1];
      AnyOfNone(xs[1..]);
    }
  }

  /** Without an identifier there is nothing to look up. */
  lemma {:induction false} NoneIsThere(xs: seq<Scalar>)
    requires forall k :: !FirstThere(xs, k)
    ensures AnyOf(xs) == Null || AnyOf(xs) == Text("") || AnyOf(xs) == Number(0)
  {
    if |xs| > 0 {
      NotThere(xs, |xs| - 1);
    }
    AnyOfNone(xs);
  }

  lemma {:induction false} NotThere(xs: seq<Scalar>, k: nat)
    requires k < |xs| && forall j :: !FirstThere(xs, j)
    ensures forall j :: 0 <= j <= k ==> !Truthy(xs[j])
  {
    if k > 0 {
      NotThere(xs, k - 1);
    }
    assert !FirstThere(xs, k);
  }

  /** An advisory goes by its GitHub id, its URL, its first CVE, its number as text, its title, or its two descriptions, in this order. */
  lemma {:induction false} AdvisoryIDIsFirst(env: Environment, a: Advisory, ids: seq<Scalar>, k: nat)
    requires ids == [a.githubID, a.url, if |a.cves| > 0 then a.cves[0] else Null,
                     if a.id.Number? then Text(env.show(a.id.n)) else a.id, a.title, a.advisory, a.overview]
    requires FirstThere(ids, k)
    ensures AdvisoryID(env, a) == ids[k]
  {
    AnyOfIsFirst(ids, k);
  }

  /** A cause that is an object goes by its GitHub id, its URL, its source, its title or its name, in this order. */
  lemma {:induction false} ItemIDIsFirst(i: Item, ids: seq<Scalar>, k: nat)
    requires i.Object? && ids == [i.githubID, i.url, i.source, i.title, i.name]
    requires FirstThere(ids, k)
    ensures ItemID(i) == ids[k]
  {
    AnyOfIsFirst(ids, k);
  }

  /** A cause that is a string goes by itself, whether it stands in a list or alone; other causes give no finding. */
  lemma {:induction false} StringCauses(name: string, severity: Option<string>, s: string)
    requires s != ""
    ensures VulnerabilityFindings([Vulnerability(name, severity, Single(s))]) == [Finding(Text(name), severity, Text(s))]
    ensures VulnerabilityFindings([Vulnerability(name, severity, Items([Named(s)]))]) == [Finding(Text(name), severity, Text(s))]
    ensures VulnerabilityFindings([Vulnerability(name, severity, Items([Other]))]) == []
    ensures VulnerabilityFindings([Vulnerability(name, severity, Neither)]) == []
  {
    OneCause(Vulnerability(name, severity, Single(s)), Named(s));
    OneCause(Vulnerability(name, severity, Items([Named(s)])), Named(s));
    OneCause(Vulnerability(name, severity, Items([Other])), Other);
    var v := Vulnerability(name, severity, Neither);
    assert [v][..0] == [];
  }

  lemma {:induction false} OneCause(v: Vulnerability, i: Item)
    requires ViaItems(v.via) == [i]
    ensures VulnerabilityFindings([v]) == if Truthy(ItemID(i)) then [Finding(Text(v.name), v.severity, ItemID(i))] else []
  {
    assert [v][..0] == [] && [i][..0] == [];
    assert CauseFindings(v, [i]) == if Truthy(ItemID(i)) then [] + [Finding(Text(v.name), v.severity, ItemID(i))] else [];
  }

  /** The finding of an advisory: the module name if there is one, else the name. */
  lemma {:induction false} AdvisoryNames(env: Environment, all: seq<Advisory>, i: nat)
    requires i < |all|
    ensures var found, a := AdvisoryFindings(env, all)[i], all[i];
            && found.severity == a.severity && found.id == AdvisoryID(env, a)
            && found.name == if a.moduleName != Null && a.moduleName != Text("") && a.moduleName != Number(0) then a.moduleName else a.name
  {
  }

  // ---------- Exceptions ----------

  const REQUIRED_FIELDS: set<string> := {"package", "advisory", "severity", "mitigation", "expires_on"}
  const HIGH_SEVERITIES: set<string> := {"high", "critical"}

  /** What a finding and an exception are matched by: the package, and the advisory in lower case. */
  datatype Key = Key(package: string, advisory: string)

  function Normalized(env: Environment, s: string): string {
    env.lower(Strip(s))
  }

  predicate Complete(e: Record) {
    forall k :: k in REQUIRED_FIELDS ==> k in e && e[k] != ""
  }

  function KeyOf(env: Environment, e: Record): Key
    requires Complete(e)
  {
    assert "package" in REQUIRED_FIELDS && "advisory" in REQUIRED_FIELDS;
    Key(Strip(e["package"]), Normalized(env, e["advisory"]))
  }

  function Expiry(env: Environment, e: Record): Option<int>
    requires Complete(e)
  {
    assert "expires_on" in REQUIRED_FIELDS;
    env.date(e["expires_on"])
  }

  function Severity(env: Environment, e: Record): string
    requires Complete(e)
  {
    assert "severity" in REQUIRED_FIELDS;
    Normalized(env, e["severity"])
  }

  /** Complete, dated, and with a package and an advisory. */
  predicate Usable(env: Environment, e: Record) {
    Complete(e) && Expiry(env, e).Some? && KeyOf(env, e).package != "" && KeyOf(env, e).advisory != ""
  }

  predicate HasKey(env: Environment, e: Record, k: Key) {
    Usable(env, e) && KeyOf(env, e) == k
  }

  /** The exception that the index keeps for a key is the first usable one. */
  ghost predicate IsIndexed(env: Environment, es: seq<Record>, a: int, k: Key) {
    0 <= a < |es| && HasKey(env, es[a], k) && forall b :: 0 <= b < a ==> !HasKey(env, es[b], k)
  }

  datatype Entry = Entry(severity: string, expiry: int)

  ghost predicate IsIndex(env: Environment, es: seq<Record>, n: nat, index: map<Key, Entry>)
    requires n <= |es|
  {
    && (forall k :: k in index ==> exists a :: a < n && IsIndexed(env, es, a, k))
    && (forall k, a :: a < n && IsIndexed(env, es, a, k) ==> k in index && index[k] == EntryOf(env, es[a]))
  }

  function EntryOf(env: Environment, e: Record): Entry
    requires Usable(env, e)
  {
    Entry(Severity(env, e), Expiry(env, e).value)
  }

  // ---------- Problems ----------

  datatype Fault = Incomplete | Undated | Unnamed | Duplicate
  datatype Flaw = NoAdvisory | Missing | Mismatch | Expired

  /** What is wrong with exception `i`, or with finding `j`. */
  datatype Problem = OfException(i: nat, fault: Fault) | OfFinding(j: nat, flaw: Flaw)

  ghost predicate FaultAt(env: Environment, es: seq<Record>, i: nat, fault: Fault) {
    i < |es| &&
    match fault
    case Incomplete => !Complete(es[i])
    case Undated => Complete(es[i]) && Expiry(env, es[i]) == None
    case Unnamed => Complete(es[i]) && Expiry(env, es[i]).Some? && !Usable(env, es[i])
    case Duplicate => Usable(env, es[i]) && !IsIndexed(env, es, i, KeyOf(env, es[i]))
  }

  /** The first of the exceptions up to `b` that have the key. */
  lemma {:induction false} FirstWith(env: Environment, es: seq<Record>, k: Key, b: nat) returns (a: nat)
    requires b < |es| && HasKey(env, es[b], k)
    ensures a <= b && IsIndexed(env, es, a, k)
  {
    a := b;
    if c :| 0 <= c < b && HasKey(env, es[c], k) {
      a := FirstWith(env, es, k, c);
    }
  }

  lemma {:induction false} InIndex(env: Environment, es: seq<Record>, n: nat, index: map<Key, Entry>)
    requires n < |es| && IsIndex(env, es, n, index) && Usable(env, es[n])
    ensures KeyOf(env, es[n]) in index <==> !IsIndexed(env, es, n, KeyOf(env, es[n]))
  {
    var k := KeyOf(env, es[n]);
    if b :| 0 <= b < n && HasKey(env, es[b], k) {
      var a := FirstWith(env, es, k, b);
      assert IsIndexed(env, es, a, k);
    }
  }

  lemma {:induction false} IndexStays(env: Environment, es: seq<Record>, n: nat, index: map<Key, Entry>)
    requires n < |es| && IsIndex(env, es, n, index)
    requires Usable(env, es[n]) ==> KeyOf(env, es[n]) in index
    ensures IsIndex(env, es, n + 1, index)
  {
    if Usable(env, es[n]) {
      InIndex(env, es, n, index);
    }
    forall k, a | a < n + 1 && IsIndexed(env, es, a, k)
      ensures k in index && index[k] == EntryOf(env, es[a])
    {
      assert a != n;
    }
  }

  lemma {:induction false} IndexGrows(env: Environment, es: seq<Record>, n: nat, index: map<Key, Entry>)
    requires n < |es| && IsIndex(env, es, n, index) && Usable(env, es[n]) && KeyOf(env, es[n]) !in index
    ensures IsIndex(env, es, n + 1, index[KeyOf(env, es[n]) := EntryOf(env, es[n])])
  {
    InIndex(env, es, n, index);
    var key := KeyOf(env, es[n]);
    var grown := index[key := EntryOf(env, es[n])];
    forall k | k in grown
      ensures exists a :: a < n + 1 && IsIndexed(env, es, a, k)
    {
      if k == key {
        assert IsIndexed(env, es, n, k);
      } else {
        var a :| a < n && IsIndexed(env, es, a, k);
        assert a < n + 1;
      }
    }
    forall k, a | a < n + 1 && IsIndexed(env, es, a, k)
      ensures k in grown && grown[k] == EntryOf(env, es[a])
    {
      if a == n {
        assert k == key;
      } else {
        assert k in index;
      }
    }
  }

  /** What is wrong with one exception, given the index of those before it. */
  predicate FaultIn(env: Environment, e: Record, index: map<Key, Entry>, fault: Fault) {
    match fault
    case Incomplete => !Complete(e)
    case Undated => Complete(e) && Expiry(env, e) == None
    case Unnamed => Complete(e) && Expiry(env, e).Some? && !Usable(env, e)
    case Duplicate => Usable(env, e) && KeyOf(env, e) in index
  }

  method CheckException(env: Environment, e: Record, index: map<Key, Entry>) returns (fault: Option<Fault>)
    ensures forall w :: fault == Some(w) <==> FaultIn(env, e, index, w)
    ensures fault == None <==> Usable(env, e) && KeyOf(env, e) !in index
  {
    if !Complete(e) {
      return Some(Incomplete);
    }
    if Expiry(env, e) == None {
      return Some(Undated);
    }
    var k := KeyOf(env, e);
    if k.package == "" || k.advisory == "" {
      return Some(Unnamed);
    }
    if k in index {
      return Some(Duplicate);
    }
    return None;
  }

  lemma {:induction false} FaultMeans(env: Environment, es: seq<Record>, i: nat, index: map<Key, Entry>, fault: Fault)
    requires i < |es| && IsIndex(env, es, i, index)
    ensures FaultIn(env, es[i], index, fault) <==> FaultAt(env, es, i, fault)
  {
    if Usable(env, es[i]) {
      InIndex(env, es, i, index);
    }
  }

  /** The problems with the first `n` exceptions. */
  ghost predicate FaultsUpTo(env: Environment, es: seq<Record>, n: nat, errors: seq<Problem>) {
    forall p :: p in errors <==> p.OfException? && p.i < n && FaultAt(env, es, p.i, p.fault)
  }

  method BuildIndex(env: Environment, es: seq<Record>) returns (index: map<Key, Entry>, errors: seq<Problem>)
    ensures IsIndex(env, es, |es|, index)
    ensures FaultsUpTo(env, es, |es|, errors)
  {
    index, errors := map[], [];
    for i := 0 to |es|
      invariant IsIndex(env, es, i, index)
      invariant FaultsUpTo(env, es, i, errors)
    {
      var fault := CheckException(env, es[i], index);
      forall w
        ensures fault == Some(w) <==> FaultAt(env, es, i, w)
      {
        FaultMeans(env, es, i, index, w);
      }
      if fault.Some? {
        errors := errors + [OfException(i, fault.value)];
        IndexStays(env, es, i, index);
      } else {
        IndexGrows(env, es, i, index);
        index := index[KeyOf(env, es[i]) := EntryOf(env, es[i])];
      }
    }
  }

  // ---------- The scan ----------

  function FoundSeverity(env: Environment, f: Finding): string {
    Normalized(env, f.severity.GetOr(""))
  }

  function Shown(env: Environment, x: Scalar): string {
    match x
    case Null => ""
    case Text(s) => s
    case Number(n) => env.show(n)
  }

  function FoundKey(env: Environment, f: Finding): Key {
    Key(Strip(Shown(env, f.name)), Normalized(env, Shown(env, f.id)))
  }

  /** A high or critical finding with a name. */
  predicate Relevant(env: Environment, f: Finding) {
    FoundSeverity(env, f) in HIGH_SEVERITIES && Truthy(f.name)
  }

  /** A relevant finding that has an advisory to look up. */
  predicate Matchable(env: Environment, f: Finding) {
    Relevant(env, f) && f.id != Null && FoundKey(env, f).advisory != ""
  }

  ghost predicate SameKeyBefore(env: Environment, fs: seq<Finding>, j: int, k: Key) {
    exists i :: 0 <= i < j && i < |fs| && Matchable(env, fs[i]) && FoundKey(env, fs[i]) == k
  }

  /** The first finding of its key; the later ones are skipped. */
  ghost predicate First(env: Environment, fs: seq<Finding>, j: nat) {
    j < |fs| && Matchable(env, fs[j]) && !SameKeyBefore(env, fs, j, FoundKey(env, fs[j]))
  }

  ghost predicate HasEntry(env: Environment, es: seq<Record>, k: Key) {
    exists a :: IsIndexed(env, es, a, k)
  }

  ghost predicate Disagrees(env: Environment, es: seq<Record>, f: Finding) {
    exists a :: IsIndexed(env, es, a, FoundKey(env, f)) && Severity(env, es[a]) != "" && Severity(env, es[a]) != FoundSeverity(env, f)
  }

  ghost predicate HasExpired(env: Environment, es: seq<Record>, k: Key) {
    exists a :: IsIndexed(env, es, a, k) && Expiry(env, es[a]).value < env.today
  }

  ghost predicate FlawAt(env: Environment, es: seq<Record>, fs: seq<Finding>, j: nat, flaw: Flaw) {
    j < |fs| &&
    match flaw
    case NoAdvisory => Relevant(env, fs[j]) && !Matchable(env, fs[j])
    case Missing => First(env, fs, j) && !HasEntry(env, es, FoundKey(env, fs[j]))
    case Mismatch => First(env, fs, j) && Disagrees(env, es, fs[j])
    case Expired => First(env, fs, j) && HasExpired(env, es, FoundKey(env, fs[j]))
  }

  /** The same, by the index and by whether the key has been seen. */
  predicate FlawIn(env: Environment, index: map<Key, Entry>, f: Finding, seen: bool, flaw: Flaw) {
    var k := FoundKey(env, f);
    match flaw
    case NoAdvisory => Relevant(env, f) && !Matchable(env, f)
    case Missing => Matchable(env, f) && !seen && k !in index
    case Mismatch => Matchable(env, f) && !seen && k in index && index[k].severity != "" && index[k].severity != FoundSeverity(env, f)
    case Expired => Matchable(env, f) && !seen && k in index && index[k].expiry < env.today
  }

  lemma {:induction false} OneEntry(env: Environment, es: seq<Record>, a: int, b: int, k: Key)
    requires IsIndexed(env, es, a, k) && IsIndexed(env, es, b, k)
    ensures a == b
  {
  }

  /** Looking a key up in the index decides everything about its exception. */
  lemma {:induction false} LookUp(env: Environment, es: seq<Record>, index: map<Key, Entry>, f: Finding)
    requires IsIndex(env, es, |es|, index)
    ensures var k := FoundKey(env, f);
            && (k in index <==> HasEntry(env, es, k))
            && (k in index && index[k].severity != "" && index[k].severity != FoundSeverity(env, f) <==> Disagrees(env, es, f))
            && (k in index && index[k].expiry < env.today <==> HasExpired(env, es, k))
  {
    var k := FoundKey(env, f);
    if k in index {
      var a :| a < |es| && IsIndexed(env, es, a, k);
      forall b | IsIndexed(env, es, b, k)
        ensures b == a
      {
        OneEntry(env, es, a, b, k);
      }
    }
  }

  ghost predicate IsSeen(env: Environment, fs: seq<Finding>, j: nat, seen: set<Key>) {
    forall k :: k in seen <==> SameKeyBefore(env, fs, j, k)
  }

  /** One finding: its flaws, and the keys seen so far. */
  method CheckFinding(env: Environment, index: map<Key, Entry>, f: Finding, before: set<Key>)
      returns (flaws: seq<Flaw>, seen: set<Key>)
    ensures seen == if Matchable(env, f) then before + {FoundKey(env, f)} else before
    ensures forall w :: w in flaws <==> FlawIn(env, index, f, FoundKey(env, f) in before, w)
  {
    flaws, seen := [], before;
    if !Relevant(env, f) {
      return;
    }
    var k := FoundKey(env, f);
    if f.id == Null || k.advisory == "" {
      return [NoAdvisory], seen;
    }
    if k in seen {
      return;
    }
    seen := seen + {k};
    if k !in index {
      return [Missing], seen;
    }
    if index[k].severity != "" && index[k].severity != FoundSeverity(env, f) {
      flaws := flaws + [Mismatch];
    }
    if index[k].expiry < env.today {
      flaws := flaws + [Expired];
    }
  }

  lemma {:induction false} FlawMeans(env: Environment, es: seq<Record>, index: map<Key, Entry>, fs: seq<Finding>, j: nat,
                                     seen: set<Key>, flaw: Flaw)
    requires IsIndex(env, es, |es|, index) && j < |fs| && IsSeen(env, fs, j, seen)
    ensures FlawIn(env, index, fs[j], FoundKey(env, fs[j]) in seen, flaw) <==> FlawAt(env, es, fs, j, flaw)
  {
    LookUp(env, es, index, fs[j]);
    assert FoundKey(env, fs[j]) in seen <==> SameKeyBefore(env, fs, j, FoundKey(env, fs[j]));
  }

  lemma {:induction false} SeenNext(env: Environment, fs: seq<Finding>, j: nat, seen: set<Key>)
    requires j < |fs| && IsSeen(env, fs, j, seen)
    ensures IsSeen(env, fs, j + 1, if Matchable(env, fs[j]) then seen + {FoundKey(env, fs[j])} else seen)
  {
    forall k
      ensures SameKeyBefore(env, fs, j + 1, k)
         <==> SameKeyBefore(env, fs, j, k) || (Matchable(env, fs[j]) && FoundKey(env, fs[j]) == k)
    {
    }
  }

  /** The problems with the first `n` findings. */
  ghost predicate FlawsUpTo(env: Environment, es: seq<Record>, fs: seq<Finding>, n: nat, errors: seq<Problem>) {
    forall p :: p in errors <==> p.OfFinding? && p.j < n && FlawAt(env, es, fs, p.j, p.flaw)
  }

  method Scan(env: Environment, es: seq<Record>, index: map<Key, Entry>, fs: seq<Finding>) returns (errors: seq<Problem>)
    requires IsIndex(env, es, |es|, index)
    ensures FlawsUpTo(env, es, fs, |fs|, errors)
  {
    errors := [];
    var seen := {};
    for j := 0 to |fs|
      invariant IsSeen(env, fs, j, seen)
      invariant FlawsUpTo(env, es, fs, j, errors)
    {
      var flaws, next := CheckFinding(env, index, fs[j], seen);
      var more := seq(|flaws|, i requires 0 <= i < |flaws| => OfFinding(j, flaws[i]));
      FlawsNext(env, es, index, fs, j, seen, errors, flaws, more);
      SeenNext(env, fs, j, seen);
      errors, seen := errors + more, next;
    }
  }

  lemma {:induction false} FlawsNext(env: Environment, es: seq<Record>, index: map<Key, Entry>, fs: seq<Finding>, j: nat,
                                     seen: set<Key>, errors: seq<Problem>, flaws: seq<Flaw>, more: seq<Problem>)
    requires IsIndex(env, es, |es|, index) && j < |fs| && IsSeen(env, fs, j, seen) && FlawsUpTo(env, es, fs, j, errors)
    requires forall w :: w in flaws <==> FlawIn(env, index, fs[j], FoundKey(env, fs[j]) in seen, w)
    requires |more| == |flaws| && forall i :: 0 <= i < |flaws| ==> more[i] == OfFinding(j, flaws[i])
    ensures FlawsUpTo(env, es, fs, j + 1, errors + more)
  {
    forall p
      ensures p in more <==> p.OfFinding? && p.j == j && FlawAt(env, es, fs, j, p.flaw)
    {
      if p.OfFinding? && p.j == j {
        FlawMeans(env, es, index, fs, j, seen, p.flaw);
        if p.flaw in flaws {
          var i :| 0 <= i < |flaws| && flaws[i] == p.flaw;
          assert more[i] == p;
        }
      }
    }
  }

  // ---------- The verdict ----------

  /** Every exception is complete, dated and named, and no two have the same key. */
  ghost predicate CleanExceptions(env: Environment, es: seq<Record>) {
    && (forall i :: 0 <= i < |es| ==> Usable(env, es[i]))
    && (forall i, k :: 0 <= i < k < |es| && Usable(env, es[i]) && Usable(env, es[k]) ==> KeyOf(env, es[i]) != KeyOf(env, es[k]))
  }

  /** The finding has an unexpired exception. */
  ghost predicate Covered(env: Environment, es: seq<Record>, f: Finding) {
    exists e :: e in es && HasKey(env, e, FoundKey(env, f)) && Expiry(env, e).value >= env.today
  }

  /** No exception of the finding names another severity. */
  ghost predicate Agrees(env: Environment, es: seq<Record>, f: Finding) {
    forall e :: e in es && HasKey(env, e, FoundKey(env, f)) ==> Severity(env, e) == "" || Severity(env, e) == FoundSeverity(env, f)
  }

  /** Every relevant finding has an advisory and an unexpired exception, which agrees with the first finding of its key. */
  ghost predicate CleanFindings(env: Environment, es: seq<Record>, fs: seq<Finding>) {
    forall j :: 0 <= j < |fs| && Relevant(env, fs[j]) ==>
      Matchable(env, fs[j]) && Covered(env, es, fs[j]) && (First(env, fs, j) ==> Agrees(env, es, fs[j]))
  }

  lemma {:induction false} CleanExceptionsIff(env: Environment, es: seq<Record>)
    ensures CleanExceptions(env, es) <==> forall i: nat, w :: !FaultAt(env, es, i, w)
  {
    if forall i: nat, w :: !FaultAt(env, es, i, w) {
      forall i: nat | i < |es|
        ensures Usable(env, es[i]) && IsIndexed(env, es, i, KeyOf(env, es[i]))
      {
        assert !FaultAt(env, es, i, Incomplete) && !FaultAt(env, es, i, Undated);
        assert !FaultAt(env, es, i, Unnamed) && !FaultAt(env, es, i, Duplicate);
      }
    }
  }

  /** Without duplicates, the exceptions of a key are the one in the index. */
  lemma {:induction false} OnlyEntry(env: Environment, es: seq<Record>, i: nat, k: Key)
    requires CleanExceptions(env, es) && i < |es|
    ensures HasKey(env, es[i], k) <==> IsIndexed(env, es, i, k)
  {
  }

  lemma {:induction false} KeyVerdict(env: Environment, es: seq<Record>, f: Finding)
    requires CleanExceptions(env, es)
    ensures HasEntry(env, es, FoundKey(env, f)) && !HasExpired(env, es, FoundKey(env, f)) <==> Covered(env, es, f)
    ensures Disagrees(env, es, f) <==> !Agrees(env, es, f)
  {
    var k := FoundKey(env, f);
    forall i: nat | i < |es|
      ensures HasKey(env, es[i], k) <==> IsIndexed(env, es, i, k)
    {
      OnlyEntry(env, es, i, k);
    }
    if Covered(env, es, f) {
      var e :| e in es && HasKey(env, e, k) && Expiry(env, e).value >= env.today;
      var i :| 0 <= i < |es| && es[i] == e;
      assert IsIndexed(env, es, i, k);
    }
    if !Agrees(env, es, f) {
      var e :| e in es && HasKey(env, e, k) && Severity(env, e) != "" && Severity(env, e) != FoundSeverity(env, f);
      var i :| 0 <= i < |es| && es[i] == e;
      assert IsIndexed(env, es, i, k);
    }
  }

  /** Every matchable finding shares its key with a first one. */
  lemma {:induction false} FirstOf(env: Environment, fs: seq<Finding>, j: nat) returns (i: nat)
    requires j < |fs| && Matchable(env, fs[j])
    ensures First(env, fs, i) && FoundKey(env, fs[i]) == FoundKey(env, fs[j])
  {
    i := j;
    if h :| 0 <= h < j && Matchable(env, fs[h]) && FoundKey(env, fs[h]) == FoundKey(env, fs[j]) {
      i := FirstOf(env, fs, h);
    }
  }

  /** What is missing or expired, whether or not the key has been seen before. */
  ghost predicate FlawAnyway(env: Environment, es: seq<Record>, f: Finding, flaw: Flaw) {
    var k := FoundKey(env, f);
    Matchable(env, f) && if flaw == Missing then !HasEntry(env, es, k) else HasExpired(env, es, k)
  }

  /** Skipping the keys already seen does not change whether some finding lacks an exception or has an expired one. */
  lemma {:induction false} SeenIsNeutral(env: Environment, es: seq<Record>, fs: seq<Finding>, flaw: Flaw)
    requires flaw == Missing || flaw == Expired
    ensures (exists j: nat :: FlawAt(env, es, fs, j, flaw)) <==> (exists f :: f in fs && FlawAnyway(env, es, f, flaw))
  {
    if f :| f in fs && FlawAnyway(env, es, f, flaw) {
      var j :| 0 <= j < |fs| && fs[j] == f;
      var i := FirstOf(env, fs, j);
      assert FlawAt(env, es, fs, i, flaw);
    }
    if j: nat :| FlawAt(env, es, fs, j, flaw) {
      assert fs[j] in fs && FlawAnyway(env, es, fs[j], flaw);
    }
  }

  lemma {:induction false} CleanFinding(env: Environment, es: seq<Record>, fs: seq<Finding>, j: nat)
    requires CleanExceptions(env, es) && j < |fs| && Relevant(env, fs[j])
    requires forall i: nat, w :: !FlawAt(env, es, fs, i, w)
    ensures Matchable(env, fs[j]) && Covered(env, es, fs[j]) && (First(env, fs, j) ==> Agrees(env, es, fs[j]))
  {
    assert !FlawAt(env, es, fs, j, NoAdvisory) && !FlawAt(env, es, fs, j, Mismatch);
    KeyVerdict(env, es, fs[j]);
    SeenIsNeutral(env, es, fs, Missing);
    SeenIsNeutral(env, es, fs, Expired);
    assert fs[j] in fs && !FlawAnyway(env, es, fs[j], Missing) && !FlawAnyway(env, es, fs[j], Expired);
  }

  lemma {:induction false} CleanFindingsIff(env: Environment, es: seq<Record>, fs: seq<Finding>)
    requires CleanExceptions(env, es)
    ensures CleanFindings(env, es, fs) <==> forall j: nat, w :: !FlawAt(env, es, fs, j, w)
  {
    if CleanFindings(env, es, fs) {
      forall j: nat, w
        ensures !FlawAt(env, es, fs, j, w)
      {
        if j < |fs| {
          KeyVerdict(env, es, fs[j]);
        }
      }
    }
    if forall j: nat, w :: !FlawAt(env, es, fs, j, w) {
      forall j: nat | j < |fs| && Relevant(env, fs[j])
        ensures Matchable(env, fs[j]) && Covered(env, es, fs[j]) && (First(env, fs, j) ==> Agrees(env, es, fs[j]))
      {
        CleanFinding(env, es, fs, j);
      }
    }
  }

  /** The checker, from the lines of the exceptions file and the audit report to the exit status. */
  method Validate(env: Environment, lines: seq<string>, audit: Audit) returns (exit: nat, errors: seq<Problem>)
    ensures exit == 0 || exit == 1
    ensures exit == 0 <==> Parsed(lines).Ok? && CleanExceptions(env, Parsed(lines).value)
                           && CleanFindings(env, Parsed(lines).value, Findings(env, audit))
    ensures Parsed(lines).Ok? ==> Reported(env, Parsed(lines).value, Findings(env, audit), errors)
  {
    var parsed := ParseExceptions(lines);
    if parsed.Err? {
      return 1, [];
    }
    var es := parsed.value;
    var index, first := BuildIndex(env, es);
    var findings := IterVulns(env, audit);
    var second := Scan(env, es, index, findings);
    errors := first + second;
    Verdict(env, es, findings, errors);
    exit := if errors == [] then 0 else 1;
  }

  /** Every fault and every flaw is reported, and nothing else. */
  ghost predicate Reported(env: Environment, es: seq<Record>, fs: seq<Finding>, errors: seq<Problem>) {
    forall p :: p in errors <==> if p.OfException? then FaultAt(env, es, p.i, p.fault) else FlawAt(env, es, fs, p.j, p.flaw)
  }

  lemma {:induction false} Verdict(env: Environment, es: seq<Record>, fs: seq<Finding>, errors: seq<Problem>)
    requires Reported(env, es, fs, errors)
    ensures errors == [] <==> CleanExceptions(env, es) && CleanFindings(env, es, fs)
  {
    CleanExceptionsIff(env, es);
    if CleanExceptions(env, es) {
      CleanFindingsIff(env, es, fs);
    }
    if errors != [] {
      assert errors[0] in errors;
    } else {
      forall i: nat, w
        ensures !FaultAt(env, es, i, w)
      {
        assert OfException(i, w) !in errors;
      }
      forall j: nat, w
        ensures !FlawAt(env, es, fs, j, w)
      {
        assert OfFinding(j, w) !in errors;
      }
    }
  }

  // ---------- The verdict by the fields ----------

  /** The five fields that every exception must fill. */
  ghost predicate AllFilled(e: Record) {
    && "package" in e && e["package"] != ""
    && "advisory" in e && e["advisory"] != ""
    && "severity" in e && e["severity"] != ""
    && "mitigation" in e && e["mitigation"] != ""
    && "expires_on" in e && e["expires_on"] != ""
  }

  lemma {:induction false} CompleteIff(e: Record)
    ensures Complete(e) <==> AllFilled(e)
  {
    assert forall k :: k in REQUIRED_FIELDS <==>
        k == "package" || k == "advisory" || k == "severity" || k == "mitigation" || k == "expires_on";
  }

  /** An exception counts when its fields are filled, its date is one, and package and advisory are not blank. */
  lemma {:induction false} UsableIff(env: Environment, e: Record)
    ensures Usable(env, e) <==> AllFilled(e) && env.date(e["expires_on"]).Some? && Strip(e["package"]) != ""
                                && env.lower(Strip(e["advisory"])) != ""
  {
    CompleteIff(e);
  }

  /** Only the severities high and critical matter, in any case and with any white space, and only under a name. */
  lemma {:induction false} RelevantIff(env: Environment, f: Finding)
    ensures var severity := env.lower(Strip(if f.severity.Some? then f.severity.value else ""));
            Relevant(env, f) <==> (severity == "high" || severity == "critical")
                                  && f.name != Null && f.name != Text("") && f.name != Number(0)
    ensures Matchable(env, f) <==> Relevant(env, f) && f.id != Null && env.lower(Strip(Words(env, f.id))) != ""
  {
  }

  function Words(env: Environment, x: Scalar): string {
    if x.Text? then x.s else if x.Number? then env.show(x.n) else ""
  }

  /** An exception is for a finding of the same package, and of the same advisory up to case, both up to surrounding white space. */
  lemma {:induction false} MatchesIff(env: Environment, e: Record, f: Finding)
    ensures HasKey(env, e, FoundKey(env, f))
       <==> Usable(env, e) && AllFilled(e) && Strip(e["package"]) == Strip(Words(env, f.name))
            && env.lower(Strip(e["advisory"])) == env.lower(Strip(Words(env, f.id)))
  {
    CompleteIff(e);
  }

  /** Such an exception covers a finding until the end of its day, and names a severity unless that is blank. */
  lemma {:induction false} CoveredIff(env: Environment, es: seq<Record>, f: Finding)
    ensures Covered(env, es, f)
       <==> exists e :: e in es && AllFilled(e) && HasKey(env, e, FoundKey(env, f)) && env.date(e["expires_on"]).value >= env.today
    ensures Agrees(env, es, f)
       <==> forall e :: e in es && AllFilled(e) && HasKey(env, e, FoundKey(env, f)) ==>
              var severity := env.lower(Strip(e["severity"]));
              severity == "" || severity == env.lower(Strip(if f.severity.Some? then f.severity.value else ""))
  {
    forall e
      ensures Complete(e) <==> AllFilled(e)
    {
      CompleteIff(e);
    }
  }

  // ---------- What the first finding hides ----------

  /** All matchable findings of a key for which the exceptions name a severity have the same severity. */
  ghost predicate UniformSeverity(env: Environment, es: seq<Record>, fs: seq<Finding>) {
    forall i, j :: 0 <= i < |fs| && 0 <= j < |fs| && Matchable(env, fs[i]) && Matchable(env, fs[j])
                   && FoundKey(env, fs[i]) == FoundKey(env, fs[j])
                   && (exists e :: e in es && HasKey(env, e, FoundKey(env, fs[i])) && Severity(env, e) != "")
                   ==> FoundSeverity(env, fs[i]) == FoundSeverity(env, fs[j])
  }

  /**
    The severity is compared with the first finding of a key only. In an accepted report, every finding agrees with its
    exception exactly when the findings of a key do not differ in severity where the exception names one.
    */
  lemma {:induction false} FirstFindingDecides(env: Environment, es: seq<Record>, fs: seq<Finding>)
    requires CleanExceptions(env, es) && CleanFindings(env, es, fs)
    ensures (forall j :: 0 <= j < |fs| && Matchable(env, fs[j]) ==> Agrees(env, es, fs[j])) <==> UniformSeverity(env, es, fs)
  {
    if UniformSeverity(env, es, fs) {
      forall j: nat | j < |fs| && Matchable(env, fs[j])
        ensures Agrees(env, es, fs[j])
      {
        var i := FirstOf(env, fs, j);
        assert Agrees(env, es, fs[i]);
      }
    }
  }

  /** An environment in which nothing has upper-case letters and every date is day 1; today is day 0. */
  function Plain(show: int -> string): Environment {
    Environment(s => s, _ => Some(1), show, 0)
  }

  const HIGH_EXCEPTION: Record :=
    map["package" := "p", "advisory" := "a", "severity" := "high", "mitigation" := "m", "expires_on" := "d"]

  function Found(severity: string): Finding {
    Finding(Text("p"), Some(severity), Text("a"))
  }

  lemma {:induction false} HighExceptionKey(show: int -> string)
    ensures HasKey(Plain(show), HIGH_EXCEPTION, Key("p", "a")) && Severity(Plain(show), HIGH_EXCEPTION) == "high"
  {
    StripTrimmed("p");
    StripTrimmed("a");
    StripTrimmed("high");
  }

  lemma {:induction false} FoundMatches(show: int -> string, severity: string)
    requires severity == "high" || severity == "critical"
    ensures Matchable(Plain(show), Found(severity)) && FoundKey(Plain(show), Found(severity)) == Key("p", "a")
    ensures FoundSeverity(Plain(show), Found(severity)) == severity
  {
    StripTrimmed("p");
    StripTrimmed("a");
    StripTrimmed(severity);
  }

  /** An exception for a high finding also lets a critical finding of the same key pass. */
  lemma {:induction false} HighHidesCritical(show: int -> string)
    ensures var env, es, fs := Plain(show), [HIGH_EXCEPTION], [Found("high"), Found("critical")];
            CleanExceptions(env, es) && CleanFindings(env, es, fs) && !UniformSeverity(env, es, fs) && !Agrees(env, es, fs[1])
  {
    var env, es, fs := Plain(show), [HIGH_EXCEPTION], [Found("high"), Found("critical")];
    HighExceptionKey(show);
    FoundMatches(show, "high");
    FoundMatches(show, "critical");
    assert es[0] in es;
    assert Matchable(env, fs[0]) && FoundKey(env, fs[0]) == Key("p", "a");
    assert SameKeyBefore(env, fs, 1, Key("p", "a"));
    assert FoundSeverity(env, fs[0]) != FoundSeverity(env, fs[1]);
  }
}
