/**
  The license collector for the Go module dependencies. Every module path is resolved to
  a repository name and URL, duplicates by name are dropped, each dependency goes through
  three license fetchers in turn (GitHub, pkg.go.dev, a manually kept table), and the
  dependencies are split into those with a license and those still missing one.

  The GitHub API and the pkg.go.dev page are inputs: `github(owner, repo)` is the license
  GitHub reports (or `None` when the request fails), and `pkgGoDev(pkg)` is the list of
  license sections of the module's page (or `None` when the page cannot be had).
 */
module FetchLicenses {
  import opened Common
  import opened Strings

  /** `remapRepos`: the project's forks, each mapped to the repository it forks. */
  const RemapRepos: map<string, string> := map[
    "pixie-labs/aes-min" := "cmcqueen/aes-min",
    "pixie-labs/arrow" := "apache/arrow",
    "pixie-labs/bcc" := "iovisor/bcc",
    "pixie-labs/bpftrace" := "iovisor/bpftrace",
    "pixie-labs/cpplint" := "cpplint/cpplint",
    "pixie-labs/dnsparser" := "packetzero/dnsparser",
    "pixie-labs/ELFIO" := "serge1/ELFIO",
    "pixie-labs/grpc" := "grpc/grpc",
    "pixie-labs/kuberesolver" := "sercand/kuberesolver",
    "pixie-labs/libpypa" := "vinzenz/libpypa",
    "pixie-labs/protobuf" := "protocolbuffers/protobuf",
    "pixie-labs/tdigest" := "derrickburns/tdigest",
    "pixie-labs/threadstacks" := "thoughtspot/threadstacks"
  ]

  const GithubUrlPrefix: string := "https://github.com/"
  const PkgGoDevUrlPrefix: string := "https://pkg.go.dev/"

  // ---------------------------------------------------------------------------------------
  // Resolving a module path
  // ---------------------------------------------------------------------------------------

  /**
    The rewrites `getNameAndURL` applies to a GitHub path before splitting it: the first
    "git@github.com:" becomes "github.com/", one trailing ".git" goes, and when "://"
    occurs the path becomes the piece after its first occurrence (up to the next one).
   */
  function NormalizePath(pkg: string): (path: string)
    ensures !Contains(path, "://")
  {
    var p := TrimSuffix(ReplaceFirst(pkg, "git@github.com:", "github.com/"), ".git");
    if Contains(p, "://") then Split(p, "://")[1] else p
  }

  /**
    What `NormalizePath` keeps: after the rewrite and the trim, a path holding "://" is cut
    to the text between its first "://" (with no "://" inside the text before it) and the
    next one (or the end); any other path is kept whole.
   */
  lemma NormalizePathPiece(pkg: string)
    ensures var p := TrimSuffix(ReplaceFirst(pkg, "git@github.com:", "github.com/"), ".git");
            var path := NormalizePath(pkg);
            && (!Contains(p, "://") ==> path == p)
            && (Contains(p, "://") ==>
                  var i := Index(p, "://");
                  var after := p[i + 3..];
                  && !Contains(p[..i], "://")
                  && HasPrefix(after, path) && (after == path || HasPrefix(after[|path|..], "://")))
  {
    var p := TrimSuffix(ReplaceFirst(pkg, "git@github.com:", "github.com/"), ".git");
    if Contains(p, "://") {
      var i := Index(p, "://");
      PrefixBeforeIndex(p, "://", i);
      assert Split(p, "://")[1] == Split(p[i + 3..], "://")[0];
      SplitHead(p[i + 3..], "://");
    }
  }

  /**
    `getNameAndURL`: the repository name and URL of a module path. A path without
    "github" is its own name; the URL is empty or the name's page on pkg.go.dev or GitHub.
   */
  function GetNameAndUrl(pkg: string, tryPkgDevGo: bool, remap: map<string, string>): (r: (string, string))
    ensures !Contains(pkg, "github") ==> r.0 == pkg
    ensures r.1 == "" || r.1 == PkgGoDevUrlPrefix + r.0 || r.1 == GithubUrlPrefix + r.0
  {
    if tryPkgDevGo && !Contains(pkg, "github") then (pkg, PkgGoDevUrlPrefix + pkg)
    else if !Contains(pkg, "github") then (pkg, "")
    else GithubNameAndUrl(NormalizePath(pkg), remap)
  }

  /**
    The GitHub branch of `getNameAndURL` on the normalised path: a path of fewer than
    three segments is its own name without a URL; otherwise the name is "owner/repo" from
    the second and third segment, remapped when the table holds it, with its page on GitHub.
   */
  function GithubNameAndUrl(path: string, remap: map<string, string>): (r: (string, string))
    ensures r.1 == "" || r.1 == GithubUrlPrefix + r.0
  {
    var parts := Split(path, "/");
    if |parts| < 3 then (path, "")
    else
      var name := Join(parts[1..3], "/");
      var name := if name in remap then remap[name] else name;
      (name, GithubUrlPrefix + name)
  }

  /** A path without "github" is its own name; its URL is on pkg.go.dev only with the flag. */
  lemma NonGithubPackage(pkg: string, tryPkgDevGo: bool, remap: map<string, string>)
    requires !Contains(pkg, "github")
    ensures tryPkgDevGo ==> GetNameAndUrl(pkg, tryPkgDevGo, remap) == (pkg, PkgGoDevUrlPrefix + pkg)
    ensures !tryPkgDevGo ==> GetNameAndUrl(pkg, tryPkgDevGo, remap) == (pkg, "")
  {
  }

  /** A GitHub path with fewer than three segments has no URL and is named by the path. */
  lemma UnderspecifiedGithubPackage(pkg: string, tryPkgDevGo: bool, remap: map<string, string>)
    requires Contains(pkg, "github")
    requires |Split(NormalizePath(pkg), "/")| < 3
    ensures GetNameAndUrl(pkg, tryPkgDevGo, remap) == (NormalizePath(pkg), "")
  {
  }

  /**
    A GitHub path with at least three segments is named by its second and third segment,
    "owner/repo", remapped when the table holds that name, and its URL is the name's page
    on GitHub.
   */
  lemma GithubPackage(pkg: string, tryPkgDevGo: bool, remap: map<string, string>)
    requires Contains(pkg, "github")
    requires |Split(NormalizePath(pkg), "/")| >= 3
    ensures var parts := Split(NormalizePath(pkg), "/");
            var ownerRepo := parts[1] + "/" + parts[2];
            var name := if ownerRepo in remap then remap[ownerRepo] else ownerRepo;
            GetNameAndUrl(pkg, tryPkgDevGo, remap) == (name, GithubUrlPrefix + name)
  {
    GithubBranch(pkg, tryPkgDevGo, remap);
    GithubNameOfLongPath(NormalizePath(pkg), remap);
  }

  /** A path mentioning "github" takes the GitHub branch, whatever the flag. */
  lemma GithubBranch(pkg: string, tryPkgDevGo: bool, remap: map<string, string>)
    requires Contains(pkg, "github")
    ensures GetNameAndUrl(pkg, tryPkgDevGo, remap) == GithubNameAndUrl(NormalizePath(pkg), remap)
  {
  }

  /** On a path of three or more segments the GitHub branch names "owner/repo". */
  lemma GithubNameOfLongPath(path: string, remap: map<string, string>)
    requires |Split(path, "/")| >= 3
    ensures var parts := Split(path, "/");
            var ownerRepo := parts[1] + "/" + parts[2];
            var name := if ownerRepo in remap then remap[ownerRepo] else ownerRepo;
            GithubNameAndUrl(path, remap) == (name, GithubUrlPrefix + name)
  {
    var parts := Split(path, "/");
    assert parts[1..3] == [parts[1], parts[2]];
    JoinTwo(parts[1], parts[2], "/");
  }

  /** A name of the form "owner/repo": exactly two "/"-separated segments. */
  predicate OwnerRepo(name: string) {
    |Split(name, "/")| == 2
  }

  /** Only the last branch of `getNameAndURL` yields a URL on GitHub. */
  lemma GithubUrlOnlyFromGithubPath(pkg: string, tryPkgDevGo: bool, remap: map<string, string>)
    ensures HasPrefix(GetNameAndUrl(pkg, tryPkgDevGo, remap).1, "https://github.com") ==>
              Contains(pkg, "github") && |Split(NormalizePath(pkg), "/")| >= 3
  {
    if tryPkgDevGo && !Contains(pkg, "github") {
      // A pkg.go.dev URL differs from "https://github.com" in its ninth character.
      assert GetNameAndUrl(pkg, tryPkgDevGo, remap).1[8] == 'p';
    }
  }

  /**
    When every remap target is of the form "owner/repo", so is the name of every
    dependency whose URL is on GitHub: the `len(parts) < 2` guard of the GitHub fetcher
    never turns such a dependency away.
   */
  lemma GithubNameIsOwnerRepo(pkg: string, tryPkgDevGo: bool, remap: map<string, string>)
    requires forall k :: k in remap ==> OwnerRepo(remap[k])
    requires HasPrefix(GetNameAndUrl(pkg, tryPkgDevGo, remap).1, "https://github.com")
    ensures OwnerRepo(GetNameAndUrl(pkg, tryPkgDevGo, remap).0)
  {
    GithubUrlOnlyFromGithubPath(pkg, tryPkgDevGo, remap);
    GithubPackage(pkg, tryPkgDevGo, remap);
    var parts := Split(NormalizePath(pkg), "/");
    var ownerRepo := parts[1] + "/" + parts[2];
    if ownerRepo !in remap {
      OwnerRepoOf(parts[1], parts[2]);
    }
  }

  /** Two segments free of "/" joined by "/" form an "owner/repo" name. */
  lemma OwnerRepoOf(owner: string, repo: string)
    requires !Contains(owner, "/") && !Contains(repo, "/")
    ensures OwnerRepo(owner + "/" + repo)
  {
    ContainsChar(owner, '/');
    ContainsChar(repo, '/');
    OwnerRepoOfSlashFree(owner, repo);
  }

  lemma OwnerRepoOfSlashFree(owner: string, repo: string)
    requires '/' !in owner && '/' !in repo
    ensures OwnerRepo(owner + "/" + repo)
  {
    SplitJoinTwo(owner, repo, '/');
  }

  /** The targets of the first seven forks of `remapRepos` are "owner/repo" names. */
  lemma RemapTargetOwnerRepoFirst(fork: string)
    requires fork in RemapRepos && fork in {"pixie-labs/aes-min", "pixie-labs/arrow", "pixie-labs/bcc", "pixie-labs/bpftrace", "pixie-labs/cpplint", "pixie-labs/dnsparser", "pixie-labs/ELFIO"}
    ensures OwnerRepo(RemapRepos[fork])
  {
    if fork == "pixie-labs/aes-min" {
      assert RemapRepos[fork] == "cmcqueen" + "/" + "aes-min";
      OwnerRepoOfSlashFree("cmcqueen", "aes-min");
    } else if fork == "pixie-labs/arrow" {
      assert RemapRepos[fork] == "apache" + "/" + "arrow";
      OwnerRepoOfSlashFree("apache", "arrow");
    } else if fork == "pixie-labs/bcc" {
      assert RemapRepos[fork] == "iovisor" + "/" + "bcc";
      OwnerRepoOfSlashFree("iovisor", "bcc");
    } else if fork == "pixie-labs/bpftrace" {
      assert RemapRepos[fork] == "iovisor" + "/" + "bpftrace";
      OwnerRepoOfSlashFree("iovisor", "bpftrace");
    } else if fork == "pixie-labs/cpplint" {
      assert RemapRepos[fork] == "cpplint" + "/" + "cpplint";
      OwnerRepoOfSlashFree("cpplint", "cpplint");
    } else if fork == "pixie-labs/dnsparser" {
      assert RemapRepos[fork] == "packetzero" + "/" + "dnsparser";
      OwnerRepoOfSlashFree("packetzero", "dnsparser");
    } else if fork == "pixie-labs/ELFIO" {
      assert RemapRepos[fork] == "serge1" + "/" + "ELFIO";
      OwnerRepoOfSlashFree("serge1", "ELFIO");
    }
  }

  /** The targets of the last six forks of `remapRepos` are "owner/repo" names. */
  lemma RemapTargetOwnerRepoRest(fork: string)
    requires fork in RemapRepos && fork in {"pixie-labs/grpc", "pixie-labs/kuberesolver", "pixie-labs/libpypa", "pixie-labs/protobuf", "pixie-labs/tdigest", "pixie-labs/threadstacks"}
    ensures OwnerRepo(RemapRepos[fork])
  {
    if fork == "pixie-labs/grpc" {
      assert RemapRepos[fork] == "grpc" + "/" + "grpc";
      OwnerRepoOfSlashFree("grpc", "grpc");
    } else if fork == "pixie-labs/kuberesolver" {
      assert RemapRepos[fork] == "sercand" + "/" + "kuberesolver";
      OwnerRepoOfSlashFree("sercand", "kuberesolver");
    } else if fork == "pixie-labs/libpypa" {
      assert RemapRepos[fork] == "vinzenz" + "/" + "libpypa";
      OwnerRepoOfSlashFree("vinzenz", "libpypa");
    } else if fork == "pixie-labs/protobuf" {
      assert RemapRepos[fork] == "protocolbuffers" + "/" + "protobuf";
      OwnerRepoOfSlashFree("protocolbuffers", "protobuf");
    } else if fork == "pixie-labs/tdigest" {
      assert RemapRepos[fork] == "derrickburns" + "/" + "tdigest";
      OwnerRepoOfSlashFree("derrickburns", "tdigest");
    } else if fork == "pixie-labs/threadstacks" {
      assert RemapRepos[fork] == "thoughtspot" + "/" + "threadstacks";
      OwnerRepoOfSlashFree("thoughtspot", "threadstacks");
    }
  }

  /** Every fork in `remapRepos` is remapped to a name of the form "owner/repo". */
  lemma RemapReposTargetsOwnerRepo()
    ensures forall k :: k in RemapRepos ==> OwnerRepo(RemapRepos[k])
  {
    forall k | k in RemapRepos
      ensures OwnerRepo(RemapRepos[k])
    {
      if k in {"pixie-labs/aes-min", "pixie-labs/arrow", "pixie-labs/bcc", "pixie-labs/bpftrace", "pixie-labs/cpplint", "pixie-labs/dnsparser", "pixie-labs/ELFIO"} {
        RemapTargetOwnerRepoFirst(k);
      } else {
        RemapTargetOwnerRepoRest(k);
      }
    }
  }

  /**
    With the project's own `remapRepos`, every dependency whose URL is on GitHub has a
    name the GitHub fetcher can split into owner and repository.
   */
  lemma RemapReposGithubNamesSplit(pkg: string, tryPkgDevGo: bool)
    requires HasPrefix(GetNameAndUrl(pkg, tryPkgDevGo, RemapRepos).1, "https://github.com")
    ensures |Split(GetNameAndUrl(pkg, tryPkgDevGo, RemapRepos).0, "/")| == 2
  {
    RemapReposTargetsOwnerRepo();
    GithubNameIsOwnerRepo(pkg, tryPkgDevGo, RemapRepos);
  }

  // ---------------------------------------------------------------------------------------
  // Dependencies and the three fetchers
  // ---------------------------------------------------------------------------------------

  /** The fields of a `dependency`, as they are written to the JSON output. */
  datatype DependencyRecord = DependencyRecord(
    name: string, url: string, pkg: string, licenseSpdx: string, licenseText: string)

  /** The `dependency` struct, shared by pointer between the fetchers and the output lists. */
  class Dependency {
    var name: string
    var url: string
    var pkg: string
    var licenseSpdx: string
    var licenseText: string

    constructor (record: DependencyRecord)
      ensures Value() == record
    {
      name := record.name;
      url := record.url;
      pkg := record.pkg;
      licenseSpdx := record.licenseSpdx;
      licenseText := record.licenseText;
    }

    function Value(): DependencyRecord
      reads this
    {
      DependencyRecord(name, url, pkg, licenseSpdx, licenseText)
    }

    /** Overwrites every field, as decoding a JSON entry into the struct does. */
    method Assign(record: DependencyRecord)
      modifies this
      ensures Value() == record
    {
      name := record.name;
      url := record.url;
      pkg := record.pkg;
      licenseSpdx := record.licenseSpdx;
      licenseText := record.licenseText;
    }
  }

  /** The current records of a list of dependencies. */
  function Values(deps: seq<Dependency>): (records: seq<DependencyRecord>)
    reads deps
    ensures |records| == |deps|
  {
    if deps == [] then [] else Values(deps[..|deps| - 1]) + [deps[|deps| - 1].Value()]
  }

  lemma {:induction false} ValuesPointwise(deps: seq<Dependency>)
    ensures forall k :: 0 <= k < |deps| ==> Values(deps)[k] == deps[k].Value()
    decreases |deps|
  {
    if deps != [] {
      ValuesPointwise(deps[..|deps| - 1]);
    }
  }

  /** The records of dependencies that hold them one by one. */
  lemma ValuesOf(deps: seq<Dependency>, records: seq<DependencyRecord>)
    requires |deps| == |records|
    requires forall k :: 0 <= k < |deps| ==> deps[k].Value() == records[k]
    ensures Values(deps) == records
  {
    ValuesPointwise(deps);
  }

  /** The dependency objects of a list. */
  function Objects(deps: seq<Dependency>): set<Dependency> {
    set d | d in deps
  }

  /** No dependency object occurs twice. */
  predicate Distinct(deps: seq<Dependency>) {
    forall i, j :: 0 <= i < j < |deps| ==> deps[i] != deps[j]
  }

  /** Dependencies whose records carry pairwise different names are different objects. */
  lemma DistinctByNames(deps: seq<Dependency>)
    requires forall i, j :: 0 <= i < j < |Values(deps)| ==> Values(deps)[i].name != Values(deps)[j].name
    ensures Distinct(deps)
  {
    ValuesPointwise(deps);
  }

  /** The current records of the manual table. */
  function Snapshot(manual: map<string, Dependency>): map<string, DependencyRecord>
    reads manual.Values
  {
    map n | n in manual :: manual[n].Value()
  }

  /**
    The license GitHub reports for a repository: its SPDX id, its content as sent
    (base64), and the content decoded, `None` when it is not valid base64.
   */
  datatype GithubLicense = GithubLicense(spdxId: string, content: string, decoded: Option<string>)

  /** GitHub's "NOASSERTION" (license text found but no SPDX id known) becomes "". */
  function NormalizeSpdx(id: string): (r: string)
    ensures r == "" <==> id == "" || id == "NOASSERTION"
    ensures r != "" ==> r == id
  {
    if id == "NOASSERTION" then "" else id
  }

  /**
    What `tryFetchGithubLicense` makes of a dependency: nothing off GitHub, and never more
    than its two license fields.
   */
  function GithubFill(d: DependencyRecord, github: (string, string) -> Option<GithubLicense>): (r: DependencyRecord)
    ensures !HasPrefix(d.url, "https://github.com") ==> r == d
    ensures r.name == d.name && r.url == d.url && r.pkg == d.pkg
  {
    if !HasPrefix(d.url, "https://github.com") then d
    else
      var parts := Split(d.name, "/");
      if |parts| < 2 then d
      else
        match github(parts[0], parts[1])
        case None => d
        case Some(l) =>
          d.(licenseSpdx := NormalizeSpdx(l.spdxId),
             licenseText := if l.decoded.Some? then l.decoded.value else l.content)
  }

  /**
    The GitHub fetcher touches nothing but the license; when it sets one, the SPDX id is
    never "NOASSERTION", and the text is the decoded content when that decodes.
   */
  lemma GithubFillStoresNormalizedLicense(d: DependencyRecord, github: (string, string) -> Option<GithubLicense>)
    ensures var r := GithubFill(d, github);
            r == d.(licenseSpdx := r.licenseSpdx, licenseText := r.licenseText)
    ensures var r := GithubFill(d, github);
            r != d ==> r.licenseSpdx != "NOASSERTION"
  {
  }

  /** `tryFetchGithubLicense`. */
  method TryFetchGithubLicense(dep: Dependency, github: (string, string) -> Option<GithubLicense>)
    modifies dep
    ensures dep.Value() == GithubFill(old(dep.Value()), github)
  {
    if !HasPrefix(dep.url, "https://github.com") {
      return;
    }
    var parts := Split(dep.name, "/");
    if |parts| < 2 {
      return;
    }
    var repoLicense := github(parts[0], parts[1]);
    if repoLicense.None? {
      return;
    }
    dep.licenseSpdx := repoLicense.value.spdxId;
    if dep.licenseSpdx == "NOASSERTION" {
      dep.licenseSpdx := "";
    }
    if repoLicense.value.decoded.None? {
      dep.licenseText := repoLicense.value.content;
    } else {
      dep.licenseText := repoLicense.value.decoded.value;
    }
  }

  /** One `.License` section of a pkg.go.dev page: its heading and its contents. */
  datatype LicenseSection = LicenseSection(spdx: string, text: string)

  /** One turn of the scraping callback: a section is taken only while no SPDX id is set. */
  function Visit(d: DependencyRecord, section: LicenseSection): DependencyRecord {
    if d.licenseSpdx != "" then d else d.(licenseSpdx := section.spdx, licenseText := section.text)
  }

  /** The sections visited in page order. */
  function ScanSections(d: DependencyRecord, sections: seq<LicenseSection>): DependencyRecord
    decreases |sections|
  {
    if sections == [] then d else ScanSections(Visit(d, sections[0]), sections[1..])
  }

  lemma {:induction false} ScanSectionsKeepsNamed(d: DependencyRecord, sections: seq<LicenseSection>)
    requires d.licenseSpdx != ""
    ensures ScanSections(d, sections) == d
    decreases |sections|
  {
    if sections != [] {
      ScanSectionsKeepsNamed(d, sections[1..]);
    }
  }

  /**
    Scanning a page from an empty SPDX id takes the license of the first section whose
    heading is non-empty, or of the last section when every heading is empty.
   */
  lemma {:induction false} ScanSectionsPicksFirstNamed(d: DependencyRecord, sections: seq<LicenseSection>, k: nat)
    requires d.licenseSpdx == ""
    requires k < |sections|
    requires forall j :: 0 <= j < k ==> sections[j].spdx == ""
    requires sections[k].spdx != "" || k == |sections| - 1
    ensures ScanSections(d, sections) == d.(licenseSpdx := sections[k].spdx, licenseText := sections[k].text)
    decreases k
  {
    var v := Visit(d, sections[0]);
    if k == 0 {
      if sections[0].spdx != "" {
        ScanSectionsKeepsNamed(v, sections[1..]);
      } else {
        assert sections[1..] == [];
      }
    } else {
      ScanSectionsPicksFirstNamed(v, sections[1..], k - 1);
    }
  }

  /**
    What `tryFetchPkgGoDevLicense` makes of a dependency: nothing without the flag or with a
    license already, and never more than its two license fields.
   */
  function PkgGoDevFill(d: DependencyRecord, tryPkgDevGo: bool, pkgGoDev: string -> Option<seq<LicenseSection>>)
    : (r: DependencyRecord)
    ensures !tryPkgDevGo || d.licenseSpdx != "" ==> r == d
    ensures r.name == d.name && r.url == d.url && r.pkg == d.pkg
  {
    if !tryPkgDevGo || d.licenseSpdx != "" then d
    else
      match pkgGoDev(d.pkg)
      case None => d
      case Some(sections) =>
        ScanSectionsKeepsIdentity(d, sections);
        ScanSections(d, sections)
  }

  /** `tryFetchPkgGoDevLicense`, with the `Each` callback over the sections as a loop. */
  method TryFetchPkgGoDevLicense(dep: Dependency, tryPkgDevGo: bool, pkgGoDev: string -> Option<seq<LicenseSection>>)
    modifies dep
    ensures dep.Value() == PkgGoDevFill(old(dep.Value()), tryPkgDevGo, pkgGoDev)
  {
    if !tryPkgDevGo {
      return;
    }
    if dep.licenseSpdx != "" {
      return;
    }
    var page := pkgGoDev(dep.pkg);
    if page.None? {
      return;
    }
    var sections := page.value;
    ghost var target := ScanSections(dep.Value(), sections);
    for i := 0 to |sections|
      invariant ScanSections(dep.Value(), sections[i..]) == target
    {
      assert sections[i..][1..] == sections[i + 1..];
      if dep.licenseSpdx == "" {
        dep.licenseSpdx := sections[i].spdx;
        dep.licenseText := sections[i].text;
      }
    }
  }

  /**
    What `tryFetchJSONManualLicense` makes of a dependency given the manual table: a
    license once set stays, and a license it sets is that of the entry of the same name.
   */
  function ManualFill(d: DependencyRecord, manual: map<string, DependencyRecord>): (r: DependencyRecord)
    ensures d.licenseSpdx != "" ==> r == d
    ensures r != d ==> d.name in manual && r.licenseSpdx == manual[d.name].licenseSpdx
  {
    if d.licenseSpdx != "" || d.name !in manual then d
    else d.(licenseSpdx := manual[d.name].licenseSpdx, licenseText := manual[d.name].licenseText)
  }

  /**
    The manual fetcher fills only an empty SPDX id, and only from an entry of the same
    name; it copies both license fields of that entry and nothing else.
   */
  lemma ManualFillRule(d: DependencyRecord, manual: map<string, DependencyRecord>)
    ensures d.licenseSpdx != "" || d.name !in manual ==> ManualFill(d, manual) == d
    ensures d.licenseSpdx == "" && d.name in manual ==>
      ManualFill(d, manual).licenseSpdx == manual[d.name].licenseSpdx &&
      ManualFill(d, manual).licenseText == manual[d.name].licenseText
    ensures var r := ManualFill(d, manual);
            r.name == d.name && r.url == d.url && r.pkg == d.pkg
  {
  }

  /** Filling a second time changes nothing. */
  lemma ManualFillIdempotent(d: DependencyRecord, manual: map<string, DependencyRecord>)
    ensures ManualFill(ManualFill(d, manual), manual) == ManualFill(d, manual)
  {
  }

  /** `tryFetchJSONManualLicense`. */
  method TryFetchJsonManualLicense(dep: Dependency, manual: map<string, Dependency>)
    modifies dep
    ensures dep.Value() == ManualFill(old(dep.Value()), old(Snapshot(manual)))
  {
    if dep.licenseSpdx != "" {
      return;
    }
    if dep.name !in manual {
      return;
    }
    var found := manual[dep.name];
    dep.licenseSpdx := found.licenseSpdx;
    dep.licenseText := found.licenseText;
  }

  /** The three fetchers in the order each worker runs them. */
  function Fetched(d: DependencyRecord, github: (string, string) -> Option<GithubLicense>, tryPkgDevGo: bool,
                   pkgGoDev: string -> Option<seq<LicenseSection>>, manual: map<string, DependencyRecord>)
    : (r: DependencyRecord)
    ensures d.licenseSpdx != "" && !HasPrefix(d.url, "https://github.com") ==> r == d
  {
    ManualFill(PkgGoDevFill(GithubFill(d, github), tryPkgDevGo, pkgGoDev), manual)
  }

  /** Fetching touches only the license of a dependency: its name, URL and package stay. */
  lemma FetchedKeepsIdentity(d: DependencyRecord, github: (string, string) -> Option<GithubLicense>, tryPkgDevGo: bool,
                             pkgGoDev: string -> Option<seq<LicenseSection>>, manual: map<string, DependencyRecord>)
    ensures var r := Fetched(d, github, tryPkgDevGo, pkgGoDev, manual);
            r.name == d.name && r.url == d.url && r.pkg == d.pkg
  {
    var g := GithubFill(d, github);
    if tryPkgDevGo && g.licenseSpdx == "" && pkgGoDev(g.pkg).Some? {
      ScanSectionsKeepsIdentity(g, pkgGoDev(g.pkg).value);
    }
  }

  lemma {:induction false} ScanSectionsKeepsIdentity(d: DependencyRecord, sections: seq<LicenseSection>)
    ensures var r := ScanSections(d, sections);
            r.name == d.name && r.url == d.url && r.pkg == d.pkg
    decreases |sections|
  {
    if sections != [] {
      ScanSectionsKeepsIdentity(Visit(d, sections[0]), sections[1..]);
    }
  }

  /** Every dependency fetched on its own. */
  function FetchedAll(records: seq<DependencyRecord>, github: (string, string) -> Option<GithubLicense>,
                      tryPkgDevGo: bool, pkgGoDev: string -> Option<seq<LicenseSection>>,
                      manual: map<string, DependencyRecord>)
    : (fetched: seq<DependencyRecord>)
    ensures |fetched| == |records|
  {
    seq(|records|, k requires 0 <= k < |records| => Fetched(records[k], github, tryPkgDevGo, pkgGoDev, manual))
  }

  /** One turn of a worker: the three fetchers on one dependency. */
  method FetchOne(dep: Dependency, github: (string, string) -> Option<GithubLicense>, tryPkgDevGo: bool,
                  pkgGoDev: string -> Option<seq<LicenseSection>>, manual: map<string, Dependency>)
    requires dep !in manual.Values
    modifies dep
    ensures dep.Value() == Fetched(old(dep.Value()), github, tryPkgDevGo, pkgGoDev, old(Snapshot(manual)))
  {
    TryFetchGithubLicense(dep, github);
    TryFetchPkgGoDevLicense(dep, tryPkgDevGo, pkgGoDev);
    TryFetchJsonManualLicense(dep, manual);
  }

  /**
    The worker pool's effect, as a sequential loop: every dependency has gone through the
    three fetchers once, against the manual table as it stood.
   */
  method FetchAll(deps: seq<Dependency>, github: (string, string) -> Option<GithubLicense>, tryPkgDevGo: bool,
                  pkgGoDev: string -> Option<seq<LicenseSection>>, manual: map<string, Dependency>)
    requires Distinct(deps)
    requires forall k :: 0 <= k < |deps| ==> deps[k] !in manual.Values
    modifies deps
    ensures unchanged(manual.Values)
    ensures Values(deps) == FetchedAll(old(Values(deps)), github, tryPkgDevGo, pkgGoDev, old(Snapshot(manual)))
  {
    ghost var table := Snapshot(manual);
    ghost var before := Values(deps);
    ghost var target := FetchedAll(before, github, tryPkgDevGo, pkgGoDev, table);
    ValuesPointwise(deps);
    for i := 0 to |deps|
      invariant unchanged(manual.Values)
      invariant forall k :: 0 <= k < |deps| ==> deps[k].Value() == if k < i then target[k] else before[k]
    {
      assert Snapshot(manual) == table;
      assert target[i] == Fetched(before[i], github, tryPkgDevGo, pkgGoDev, table);
      label Turn:
      FetchOne(deps[i], github, tryPkgDevGo, pkgGoDev, manual);
      forall k | 0 <= k < |deps|
        ensures deps[k].Value() == if k < i + 1 then target[k] else before[k]
      {
        if k != i {
          assert deps[k] != deps[i];
          assert deps[k].Value() == old@Turn(deps[k].Value());
        }
      }
    }
    ValuesOf(deps, target);
  }

  // ---------------------------------------------------------------------------------------
  // De-duplication
  // ---------------------------------------------------------------------------------------

  /** The dependency `main` creates for a line of the modules file, before any fetching. */
  function Resolve(pkg: string, tryPkgDevGo: bool, remap: map<string, string>): DependencyRecord {
    var nameAndUrl := GetNameAndUrl(pkg, tryPkgDevGo, remap);
    DependencyRecord(nameAndUrl.0, nameAndUrl.1, pkg, "", "")
  }

  function ResolveAll(modules: seq<string>, tryPkgDevGo: bool, remap: map<string, string>)
    : (records: seq<DependencyRecord>)
    ensures |records| == |modules|
  {
    if modules == [] then []
    else ResolveAll(modules[..|modules| - 1], tryPkgDevGo, remap) + [Resolve(modules[|modules| - 1], tryPkgDevGo, remap)]
  }

  lemma {:induction false} ResolveAllAt(modules: seq<string>, i: nat, tryPkgDevGo: bool, remap: map<string, string>)
    requires i < |modules|
    ensures ResolveAll(modules, tryPkgDevGo, remap)[i] == Resolve(modules[i], tryPkgDevGo, remap)
    decreases |modules|
  {
    if i < |modules| - 1 {
      ResolveAllAt(modules[..|modules| - 1], i, tryPkgDevGo, remap);
    }
  }

  /** The names occurring in a list of records. */
  function NamesOf(records: seq<DependencyRecord>): set<string>
  {
    if records == [] then {} else NamesOf(records[..|records| - 1]) + {records[|records| - 1].name}
  }

  /** Every record's name is among the names of the list. */
  lemma {:induction false} NamesOfPointwise(records: seq<DependencyRecord>)
    ensures forall k :: 0 <= k < |records| ==> records[k].name in NamesOf(records)
    decreases |records|
  {
    if records != [] {
      NamesOfPointwise(records[..|records| - 1]);
    }
  }

  /** The position of the first record named `name`. */
  function FirstIndex(records: seq<DependencyRecord>, name: string): (i: nat)
    requires name in NamesOf(records)
    ensures i < |records| && records[i].name == name
    ensures forall j :: 0 <= j < i ==> records[j].name != name
  {
    var init := records[..|records| - 1];
    NamesOfPointwise(init);
    if name in NamesOf(init) then FirstIndex(init, name) else |records| - 1
  }

  /** The records with every record dropped whose name an earlier record already has. */
  function Dedup(records: seq<DependencyRecord>): (kept: seq<DependencyRecord>)
    ensures |kept| <= |records|
    ensures forall k :: 0 <= k < |kept| ==> kept[k] in records
  {
    if records == [] then []
    else
      var init := records[..|records| - 1];
      var last := records[|records| - 1];
      if last.name in NamesOf(init) then Dedup(init) else Dedup(init) + [last]
  }

  lemma DedupPush(records: seq<DependencyRecord>, r: DependencyRecord)
    ensures NamesOf(records + [r]) == NamesOf(records) + {r.name}
    ensures Dedup(records + [r]) == if r.name in NamesOf(records) then Dedup(records) else Dedup(records) + [r]
  {
    assert (records + [r])[..|records|] == records;
  }

  /** De-duplication keeps every name. */
  lemma {:induction false} DedupKeepsNames(records: seq<DependencyRecord>)
    ensures NamesOf(Dedup(records)) == NamesOf(records)
    decreases |records|
  {
    if records != [] {
      var init := records[..|records| - 1];
      var last := records[|records| - 1];
      DedupKeepsNames(init);
      if last.name !in NamesOf(init) {
        DedupPush(Dedup(init), last);
      }
    }
  }

  /** No name is kept twice. */
  lemma {:induction false} DedupNamesDistinct(records: seq<DependencyRecord>)
    ensures forall i, j :: 0 <= i < j < |Dedup(records)| ==> Dedup(records)[i].name != Dedup(records)[j].name
    decreases |records|
  {
    if records != [] {
      var init := records[..|records| - 1];
      var last := records[|records| - 1];
      DedupNamesDistinct(init);
      if last.name !in NamesOf(init) {
        var d := Dedup(init);
        DedupKeepsNames(init);
        NamesOfPointwise(d);
        assert forall i :: 0 <= i < |d| ==> d[i].name != last.name;
      }
    }
  }

  /** Names of a prefix keep their first position in the whole list. */
  lemma FirstIndexOfInit(records: seq<DependencyRecord>)
    requires records != []
    ensures forall n :: n in NamesOf(records[..|records| - 1]) ==>
      n in NamesOf(records) && FirstIndex(records, n) == FirstIndex(records[..|records| - 1], n)
  {
  }

  /** Each kept record is the first record of its name. */
  lemma {:induction false} DedupKeepsFirst(records: seq<DependencyRecord>)
    ensures forall k :: 0 <= k < |Dedup(records)| ==>
      Dedup(records)[k].name in NamesOf(records) &&
      Dedup(records)[k] == records[FirstIndex(records, Dedup(records)[k].name)]
    decreases |records|
  {
    if records != [] {
      var init := records[..|records| - 1];
      var last := records[|records| - 1];
      DedupKeepsFirst(init);
      FirstIndexOfInit(records);
      var d := Dedup(init);
      forall k | 0 <= k < |d|
        ensures d[k].name in NamesOf(records) && d[k] == records[FirstIndex(records, d[k].name)]
      {
        assert records[FirstIndex(init, d[k].name)] == init[FirstIndex(init, d[k].name)];
      }
      if last.name !in NamesOf(init) {
        assert FirstIndex(records, last.name) == |init|;
      }
    }
  }

  /** The kept records appear in the order of the first occurrences of their names. */
  lemma {:induction false} DedupKeepsOrder(records: seq<DependencyRecord>)
    ensures forall k :: 0 <= k < |Dedup(records)| ==> Dedup(records)[k].name in NamesOf(records)
    ensures forall i, j :: 0 <= i < j < |Dedup(records)| ==>
      FirstIndex(records, Dedup(records)[i].name) < FirstIndex(records, Dedup(records)[j].name)
    decreases |records|
  {
    if records != [] {
      var init := records[..|records| - 1];
      var last := records[|records| - 1];
      DedupKeepsOrder(init);
      FirstIndexOfInit(records);
      if last.name !in NamesOf(init) {
        assert FirstIndex(records, last.name) == |init|;
      }
    }
  }

  /** One turn of the de-duplication loop, on the records kept and the names seen so far. */
  lemma CollectStep(records: seq<DependencyRecord>, i: nat, kept: seq<DependencyRecord>, seen: set<string>)
    requires i < |records|
    requires kept == Dedup(records[..i]) && seen == NamesOf(records[..i])
    ensures Dedup(records[..i + 1]) == if records[i].name in seen then kept else kept + [records[i]]
    ensures NamesOf(records[..i + 1]) == seen + {records[i].name}
  {
    assert records[..i + 1] == records[..i] + [records[i]];
    DedupPush(records[..i], records[i]);
  }

  /**
    One turn of the de-duplication loop of `main`: a dependency holding `record` is
    appended unless its name was already seen, and the name is marked seen.
    `pkgSeen` only ever maps names to true, so it is kept as the set of its keys.
   */
  method CollectLine(deps: seq<Dependency>, pkgSeen: set<string>, record: DependencyRecord,
                     ghost kept: seq<DependencyRecord>)
    returns (deps': seq<Dependency>, pkgSeen': set<string>, ghost kept': seq<DependencyRecord>)
    requires Values(deps) == kept
    ensures kept' == if record.name in pkgSeen then kept else kept + [record]
    ensures pkgSeen' == pkgSeen + {record.name}
    ensures Values(deps') == kept'
    ensures |deps| <= |deps'| && deps'[..|deps|] == deps
    ensures forall d :: d in deps' ==> d in deps || fresh(d)
  {
    deps', kept' := deps, kept;
    if record.name !in pkgSeen {
      var dep := new Dependency(record);
      deps' := deps + [dep];
      kept' := kept + [record];
      assert deps'[..|deps|] == deps;
    }
    pkgSeen' := pkgSeen + {record.name};
  }

  /**
    The de-duplication loop of `main`: each line is resolved and a dependency is created
    for it unless its name was already seen.
   */
  method CollectDependencies(modules: seq<string>, tryPkgDevGo: bool, remap: map<string, string>)
    returns (deps: seq<Dependency>)
    ensures Values(deps) == Dedup(ResolveAll(modules, tryPkgDevGo, remap))
    ensures fresh(Objects(deps))
  {
    deps := [];
    var pkgSeen: set<string> := {};
    ghost var resolved := ResolveAll(modules, tryPkgDevGo, remap);
    ghost var kept: seq<DependencyRecord> := [];
    for i := 0 to |modules|
      invariant Values(deps) == kept
      invariant forall d :: d in deps ==> fresh(d)
      invariant kept == Dedup(resolved[..i]) && pkgSeen == NamesOf(resolved[..i])
    {
      ghost var before := deps;
      label Turn:
      deps, pkgSeen, kept := CollectModule(modules, i, tryPkgDevGo, remap, deps, pkgSeen, kept);
      forall d | d in deps
        ensures fresh(d)
      {
        if d !in before {
          assert !old@Turn(allocated(d));
        }
      }
    }
    assert resolved[..|modules|] == resolved;
  }

  /** The `i`-th turn of `CollectDependencies`: resolve module line `i` and collect it. */
  method CollectModule(modules: seq<string>, i: nat, tryPkgDevGo: bool, remap: map<string, string>,
                       deps: seq<Dependency>, pkgSeen: set<string>, ghost kept: seq<DependencyRecord>)
    returns (deps': seq<Dependency>, pkgSeen': set<string>, ghost kept': seq<DependencyRecord>)
    requires i < |modules|
    requires Values(deps) == kept
    requires var resolved := ResolveAll(modules, tryPkgDevGo, remap);
             kept == Dedup(resolved[..i]) && pkgSeen == NamesOf(resolved[..i])
    ensures Values(deps') == kept'
    ensures var resolved := ResolveAll(modules, tryPkgDevGo, remap);
            kept' == Dedup(resolved[..i + 1]) && pkgSeen' == NamesOf(resolved[..i + 1])
    ensures forall d :: d in deps' ==> d in deps || fresh(d)
  {
    var record := Resolve(modules[i], tryPkgDevGo, remap);
    ResolveAllAt(modules, i, tryPkgDevGo, remap);
    CollectStep(ResolveAll(modules, tryPkgDevGo, remap), i, kept, pkgSeen);
    deps', pkgSeen', kept' := CollectLine(deps, pkgSeen, record, kept);
  }

  // ---------------------------------------------------------------------------------------
  // Found and missing
  // ---------------------------------------------------------------------------------------

  /** The records with a license, in order. */
  function Licensed(records: seq<DependencyRecord>): (found: seq<DependencyRecord>)
    ensures forall k :: 0 <= k < |found| ==> found[k].licenseSpdx != ""
  {
    if records == [] then []
    else
      var last := records[|records| - 1];
      Licensed(records[..|records| - 1]) + if last.licenseSpdx != "" then [last] else []
  }

  /** The records without a license, in order. */
  function Unlicensed(records: seq<DependencyRecord>): (missing: seq<DependencyRecord>)
    ensures forall k :: 0 <= k < |missing| ==> missing[k].licenseSpdx == ""
  {
    if records == [] then []
    else
      var last := records[|records| - 1];
      Unlicensed(records[..|records| - 1]) + if last.licenseSpdx == "" then [last] else []
  }

  lemma PartitionPush(records: seq<DependencyRecord>, r: DependencyRecord)
    ensures Licensed(records + [r]) == Licensed(records) + if r.licenseSpdx != "" then [r] else []
    ensures Unlicensed(records + [r]) == Unlicensed(records) + if r.licenseSpdx == "" then [r] else []
  {
    assert (records + [r])[..|records|] == records;
  }

  /**
    The split keeps the order: splitting two runs of records is splitting each, laid end
    to end. With `PartitionPush` this pins both lists down record by record.
   */
  lemma {:induction false} PartitionAppend(a: seq<DependencyRecord>, b: seq<DependencyRecord>)
    ensures Licensed(a + b) == Licensed(a) + Licensed(b)
    ensures Unlicensed(a + b) == Unlicensed(a) + Unlicensed(b)
    decreases |b|
  {
    if b == [] {
      assert a + b == a;
    } else {
      var init := b[..|b| - 1];
      var last := b[|b| - 1];
      assert a + b == (a + init) + [last];
      assert b == init + [last];
      PartitionAppend(a, init);
      PartitionPush(a + init, last);
      PartitionPush(init, last);
      var found := if last.licenseSpdx != "" then [last] else [];
      var missing := if last.licenseSpdx == "" then [last] else [];
      calc {
        Licensed(a + b);
        Licensed(a + init) + found;
        (Licensed(a) + Licensed(init)) + found;
        Licensed(a) + (Licensed(init) + found);
        Licensed(a) + Licensed(b);
      }
      calc {
        Unlicensed(a + b);
        Unlicensed(a + init) + missing;
        (Unlicensed(a) + Unlicensed(init)) + missing;
        Unlicensed(a) + (Unlicensed(init) + missing);
        Unlicensed(a) + Unlicensed(b);
      }
    }
  }

  /** Found and missing together hold every record exactly once. */
  lemma {:induction false} LicensedPartition(records: seq<DependencyRecord>)
    ensures multiset(Licensed(records)) + multiset(Unlicensed(records)) == multiset(records)
    decreases |records|
  {
    if records != [] {
      var init := records[..|records| - 1];
      var last := records[|records| - 1];
      LicensedPartition(init);
      assert records == init + [last];
      assert multiset(records) == multiset(init) + multiset{last};
      if last.licenseSpdx != "" {
        assert Licensed(records) == Licensed(init) + [last];
        assert Unlicensed(records) == Unlicensed(init) + [];
      } else {
        assert Licensed(records) == Licensed(init) + [];
        assert Unlicensed(records) == Unlicensed(init) + [last];
      }
    }
  }


  /** The found/missing loop of `main`. */
  method Partition(deps: seq<Dependency>) returns (found: seq<Dependency>, missing: seq<Dependency>)
    ensures Values(found) == Licensed(Values(deps))
    ensures Values(missing) == Unlicensed(Values(deps))
  {
    ghost var records := Values(deps);
    ValuesPointwise(deps);
    ghost var licensed: seq<DependencyRecord> := [];
    ghost var unlicensed: seq<DependencyRecord> := [];
    found, missing := [], [];
    for i := 0 to |deps|
      invariant licensed == Licensed(records[..i]) && unlicensed == Unlicensed(records[..i])
      invariant |found| == |licensed| && |missing| == |unlicensed|
      invariant forall k :: 0 <= k < |found| ==> found[k].Value() == licensed[k]
      invariant forall k :: 0 <= k < |missing| ==> missing[k].Value() == unlicensed[k]
    {
      var dep := deps[i];
      assert records[..i + 1] == records[..i] + [records[i]];
      PartitionPush(records[..i], records[i]);
      if dep.licenseSpdx != "" {
        found := found + [dep];
        licensed := licensed + [records[i]];
      } else {
        missing := missing + [dep];
        unlicensed := unlicensed + [records[i]];
      }
    }
    assert records[..|deps|] == records;
    ValuesOf(found, licensed);
    ValuesOf(missing, unlicensed);
  }

  // ---------------------------------------------------------------------------------------
  // The manual table and the whole run
  // ---------------------------------------------------------------------------------------

  /** The manual table as intended: each name maps to the last entry of that name. */
  function ManualTable(records: seq<DependencyRecord>): (table: map<string, DependencyRecord>)
    ensures table.Keys == NamesOf(records)
  {
    if records == [] then map[]
    else
      var last := records[|records| - 1];
      ManualTable(records[..|records| - 1])[last.name := last]
  }

  /** In the intended table an entry that no later entry shadows is found under its name. */
  lemma {:induction false} ManualTableLastWins(records: seq<DependencyRecord>, i: nat)
    requires i < |records|
    requires forall j :: i < j < |records| ==> records[j].name != records[i].name
    ensures records[i].name in ManualTable(records) && ManualTable(records)[records[i].name] == records[i]
    decreases |records|
  {
    if i < |records| - 1 {
      var init := records[..|records| - 1];
      ManualTableLastWins(init, i);
    }
  }

  /**
    `readData` after decoding, as written: the loop stores the address of its loop
    variable, one variable for the whole loop, so every name maps to the same object,
    which holds the last entry when the loop ends.
   */
  method ReadManualAsWritten(decoded: seq<DependencyRecord>) returns (licenses: map<string, Dependency>)
    ensures Snapshot(licenses) == AliasedTable(decoded)
  {
    var dep := new Dependency(DependencyRecord("", "", "", "", ""));
    licenses := map[];
    for i := 0 to |decoded|
      invariant licenses.Keys == NamesOf(decoded[..i])
      invariant forall n :: n in licenses ==> licenses[n] == dep
      invariant i > 0 ==> dep.Value() == decoded[i - 1]
    {
      assert decoded[..i + 1][..i] == decoded[..i];
      dep.Assign(decoded[i]);
      licenses := licenses[decoded[i].name := dep];
    }
    assert decoded[..|decoded|] == decoded;
  }

  /** The table `readData` builds as written: every name sees the last entry. */
  function AliasedTable(records: seq<DependencyRecord>): (table: map<string, DependencyRecord>)
    ensures table.Keys == NamesOf(records)
  {
    if records == [] then map[] else map n | n in NamesOf(records) :: records[|records| - 1]
  }

  /**
    With the table as written, every dependency still without a license whose name has a
    manual entry gets the license of the last entry of the file, whatever its own entry says.
   */
  lemma AliasedFillTakesLastEntry(d: DependencyRecord, records: seq<DependencyRecord>)
    requires d.licenseSpdx == "" && d.name in NamesOf(records)
    ensures records != []
    ensures ManualFill(d, AliasedTable(records)).licenseSpdx == records[|records| - 1].licenseSpdx
    ensures ManualFill(d, AliasedTable(records)).licenseText == records[|records| - 1].licenseText
  {
  }

  /**
    With two manual entries "a" (MIT) and "b" (Apache-2.0), the table as written gives
    "a" the license of "b"; the intended table keeps MIT.
   */
  lemma AliasingLosesManualLicenses()
    ensures var decoded := [DependencyRecord("a", "", "", "MIT", "MIT text"),
                            DependencyRecord("b", "", "", "Apache-2.0", "Apache text")];
            "a" in AliasedTable(decoded) && AliasedTable(decoded)["a"].licenseSpdx == "Apache-2.0" &&
            "a" in ManualTable(decoded) && ManualTable(decoded)["a"].licenseSpdx == "MIT"
  {
    var decoded := [DependencyRecord("a", "", "", "MIT", "MIT text"),
                    DependencyRecord("b", "", "", "Apache-2.0", "Apache text")];
    assert decoded[..1] == [decoded[0]];
    assert decoded[0].name in NamesOf(decoded);
  }

  /** One turn of the corrected loop: the entry is stored under its name in a fresh object. */
  method AddManualEntry(licenses: map<string, Dependency>, record: DependencyRecord)
    returns (licenses': map<string, Dependency>)
    ensures Snapshot(licenses') == Snapshot(licenses)[record.name := record]
    ensures fresh(licenses'.Values - licenses.Values)
  {
    var dep := new Dependency(record);
    licenses' := licenses[record.name := dep];
  }

  /** `readData` after decoding, with a fresh object for every entry. */
  method ReadManual(decoded: seq<DependencyRecord>) returns (licenses: map<string, Dependency>)
    ensures Snapshot(licenses) == ManualTable(decoded)
    ensures fresh(licenses.Values)
  {
    licenses := map[];
    for i := 0 to |decoded|
      invariant Snapshot(licenses) == ManualTable(decoded[..i])
      invariant fresh(licenses.Values)
    {
      assert decoded[..i + 1][..i] == decoded[..i];
      licenses := AddManualEntry(licenses, decoded[i]);
    }
    assert decoded[..|decoded|] == decoded;
  }

  /** The manual table `main` works with: none without `--json_manual_input`. */
  function ManualTableOf(manualInput: Option<seq<DependencyRecord>>): map<string, DependencyRecord> {
    if manualInput.Some? then ManualTable(manualInput.value) else map[]
  }

  /** How `main` ends once the found licenses are written. */
  datatype Outcome =
    | Completed
      /** Licenses are missing and there is no `--json_missing_output` to write them to. */
    | MissingLicensesFatal(count: nat)

  /**
    `main` after flag parsing and file reading: `modules` are the lines of the modules
    file, `manualInput` the decoded manual file if one is given. The found and missing
    lists are the licensed and unlicensed fetched dependencies, in order.
   */
  method ResolveLicenses(modules: seq<string>, tryPkgDevGo: bool, remap: map<string, string>,
                         manualInput: Option<seq<DependencyRecord>>,
                         github: (string, string) -> Option<GithubLicense>,
                         pkgGoDev: string -> Option<seq<LicenseSection>>, hasMissingOutput: bool)
    returns (found: seq<DependencyRecord>, missing: seq<DependencyRecord>, outcome: Outcome)
    ensures var fetched := FetchedAll(Dedup(ResolveAll(modules, tryPkgDevGo, remap)), github, tryPkgDevGo,
                                      pkgGoDev, ManualTableOf(manualInput));
            found == Licensed(fetched) && missing == Unlicensed(fetched)
    ensures outcome == if !hasMissingOutput && |missing| > 0 then MissingLicensesFatal(|missing|) else Completed
  {
    ghost var table := ManualTableOf(manualInput);
    var manual: map<string, Dependency> := map[];
    if manualInput.Some? {
      manual := ReadManual(manualInput.value);
    }
    assert Snapshot(manual) == table;
    var deps := CollectDependencies(modules, tryPkgDevGo, remap);
    assert Snapshot(manual) == table;
    ghost var collected := Values(deps);
    assert Distinct(deps) by {
      DedupNamesDistinct(ResolveAll(modules, tryPkgDevGo, remap));
      DistinctByNames(deps);
    }
    assert forall k :: 0 <= k < |deps| ==> deps[k] in Objects(deps);
    FetchAll(deps, github, tryPkgDevGo, pkgGoDev, manual);
    ghost var fetched := Values(deps);
    assert fetched == FetchedAll(collected, github, tryPkgDevGo, pkgGoDev, table);
    var foundDeps, missingDeps := Partition(deps);
    found := Values(foundDeps);
    missing := Values(missingDeps);
    assert found == Licensed(fetched) && missing == Unlicensed(fetched);
    if !hasMissingOutput && |missing| > 0 {
      outcome := MissingLicensesFatal(|missing|);
    } else {
      outcome := Completed;
    }
  }
}
