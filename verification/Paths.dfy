/** Paths of the LXD API: splitting and joining at slashes, prefixing, and what a path identifies. */
module Paths {
  import opened Wrappers

  predicate NoSlash(s: string) {
    '/' !in s
  }

  /** `s.split("/")`. */
  function Split(s: string): (parts: seq<string>)
    ensures |parts| > 0
  {
    if s == "" then [""]
    else var rest := Split(s[1..]);
         if s[0] == '/' then [""] + rest else [[s[0]] + rest[0]] + rest[1..]
  }

  /** `"/".join(parts)`. */
  function Join(parts: seq<string>): string
    requires |parts| > 0
  {
    if |parts| == 1 then parts[0] else parts[0] + "/" + Join(parts[1..])
  }

  /** `s.rstrip("/")`. */
  function TrimSlashes(s: string): string {
    if s != "" && s[|s| - 1] == '/' then TrimSlashes(s[..|s| - 1]) else s
  }

  /** Splitting a slash-free first part off a path. */
  lemma {:induction false} SplitHead(head: string, rest: string)
    requires NoSlash(head)
    ensures Split(head + "/" + rest) == [head] + Split(rest)
    ensures Split(head) == [head]
  {
    if head == "" {
      assert (head + "/" + rest)[1..] == rest;
    } else {
      SplitHead(head[1..], rest);
      assert (head + "/" + rest)[1..] == head[1..] + "/" + rest;
      assert [head[0]] + head[1..] == head;
    }
  }

  /** Splitting undoes joining of slash-free parts. */
  lemma {:induction false} SplitJoin(parts: seq<string>)
    requires |parts| > 0 && forall p :: p in parts ==> NoSlash(p)
    ensures Split(Join(parts)) == parts
  {
    assert parts[0] in parts;
    if |parts| == 1 {
      SplitHead(parts[0], "");
    } else {
      SplitJoin(parts[1..]);
      SplitHead(parts[0], Join(parts[1..]));
    }
  }

  lemma Regroup(a: string, b: string, rest: string)
    ensures (a + b) + "/" + rest == a + (b + "/" + rest)
  {
  }

  lemma JoinLonger(c: char, parts: seq<string>)
    requires |parts| > 0
    ensures Join([[c] + parts[0]] + parts[1..]) == [c] + Join(parts)
  {
    if |parts| > 1 {
      assert ([[c] + parts[0]] + parts[1..])[1..] == parts[1..];
      Regroup([c], parts[0], Join(parts[1..]));
    }
  }

  lemma JoinEmptyFirst(parts: seq<string>)
    requires |parts| > 0
    ensures Join([""] + parts) == ['/'] + Join(parts)
  {
    assert ([""] + parts)[1..] == parts;
  }

  /** Joining undoes splitting, and the parts of a split are slash-free. */
  lemma {:induction false} JoinSplit(s: string)
    ensures Join(Split(s)) == s
    ensures forall p :: p in Split(s) ==> NoSlash(p)
  {
    if s != "" {
      JoinSplit(s[1..]);
      var rest := Split(s[1..]);
      assert rest[0] in rest;
      if s[0] == '/' {
        JoinEmptyFirst(rest);
      } else {
        JoinLonger(s[0], rest);
      }
      assert s == [s[0]] + s[1..];
    }
  }

  /** `path if path.startswith("/") else f"/1.0/{path}"`. */
  function Url(path: string): string {
    if path != "" && path[0] == '/' then path else "/1.0/" + path
  }

  /** The path of a URL ends at its query or fragment. */
  function PathPart(url: string): string {
    if url == "" || url[0] == '?' || url[0] == '#' then "" else [url[0]] + PathPart(url[1..])
  }

  /** The resources the routes address in LXD. */
  datatype Resource =
    | Root | HostResources | Events
    | Instances | Instance(name: string) | State(name: string) | Exec(name: string) | Console(name: string)
    | Logs(name: string) | Log(name: string, file: string)
    | Snapshots(name: string) | Snapshot(name: string, snap: string)
    | Backups(name: string) | Backup(name: string, backup: string) | Export(name: string, backup: string)
    | Pools | Pool(pool: string) | PoolResources(pool: string)
    | Volumes(pool: string) | Volume(pool: string, kind: string, volume: string)
    | Networks | Network(network: string) | NetworkState(network: string)
    | Projects | Project(project: string)
    | Images | Image(fingerprint: string) | Aliases | Alias(alias: string)
    | Operations | Operation(id: string) | Wait(id: string) | Socket(id: string)

  /**
   * The collection a route addresses, the first part of the path it asks the client for. The events
   * relay appends its parameter with `&` to a URL without a query, which makes it part of the path.
   */
  function Section(r: Resource): string {
    match r
    case Root => ""
    case HostResources => "resources"
    case Events => "events&type=operation"
    case Instances | Instance(_) | State(_) | Exec(_) | Console(_) | Logs(_) | Log(_, _)
       | Snapshots(_) | Snapshot(_, _) | Backups(_) | Backup(_, _) | Export(_, _) => "instances"
    case Pools | Pool(_) | PoolResources(_) | Volumes(_) | Volume(_, _, _) => "storage-pools"
    case Networks | Network(_) | NetworkState(_) => "networks"
    case Projects | Project(_) => "projects"
    case Images | Image(_) | Aliases | Alias(_) => "images"
    case Operations | Operation(_) | Wait(_) | Socket(_) => "operations"
  }

  /** The rest of that path. */
  function Rest(r: Resource): seq<string> {
    match r
    case Root => [""]
    case HostResources | Events | Instances | Pools | Networks | Projects | Images | Operations => []
    case Instance(name) => [name]
    case State(name) => [name, "state"]
    case Exec(name) => [name, "exec"]
    case Console(name) => [name, "console"]
    case Logs(name) => [name, "logs"]
    case Log(name, file) => [name, "logs", file]
    case Snapshots(name) => [name, "snapshots"]
    case Snapshot(name, snap) => [name, "snapshots", snap]
    case Backups(name) => [name, "backups"]
    case Backup(name, backup) => [name, "backups", backup]
    case Export(name, backup) => [name, "backups", backup, "export"]
    case Pool(pool) => [pool]
    case PoolResources(pool) => [pool, "resources"]
    case Volumes(pool) => [pool, "volumes"]
    case Volume(pool, kind, volume) => [pool, "volumes", kind, volume]
    case Network(network) => [network]
    case NetworkState(network) => [network, "state"]
    case Project(project) => [project]
    case Image(fingerprint) => [fingerprint]
    case Aliases => ["aliases"]
    case Alias(alias) => ["aliases", alias]
    case Operation(id) => [id]
    case Wait(id) => [id, "wait"]
    case Socket(id) => [id, "websocket"]
  }

  /** The path in parts; only the server root is absolute. */
  function Parts(r: Resource): seq<string> {
    [Section(r)] + Rest(r)
  }

  function ResourceUrl(r: Resource): string {
    Url(Join(Parts(r)))
  }

  /**
   * A name that holds no delimiter of URL syntax. Paths are compared as the URL strings handed to the
   * transport; what it makes of dot segments and percent escapes is not part of this model.
   */
  predicate Plain(name: string) {
    forall i :: 0 <= i < |name| ==> name[i] != '/' && name[i] != '?' && name[i] != '#'
  }

  ghost predicate WellNamed(r: Resource) {
    forall p :: p in Parts(r) ==> Plain(p)
  }

  /** The resource that a list of path parts identifies. */
  function Identify(parts: seq<string>): Option<Resource> {
    if parts == ["", ""] then Some(Root)
    else if |parts| < 3 || parts[0] != "" || parts[1] != "1.0" then None
    else IdentifyIn(parts[2], parts[3..])
  }

  function IdentifyIn(section: string, p: seq<string>): Option<Resource> {
    if section == "instances" then IdentifyInstance(p)
    else if section == "storage-pools" then IdentifyPool(p)
    else if section == "networks" then IdentifyNetwork(p)
    else if section == "images" then IdentifyImage(p)
    else if section == "operations" then IdentifyOperation(p)
    else if section == "projects" then IdentifyProject(p)
    else if section == "resources" && p == [] then Some(HostResources)
    else if section == "events&type=operation" && p == [] then Some(Events)
    else None
  }

  function IdentifyInstance(p: seq<string>): Option<Resource> {
    match |p|
    case 0 => Some(Instances)
    case 1 => Some(Instance(p[0]))
    case 2 =>
      if p[1] == "state" then Some(State(p[0]))
      else if p[1] == "exec" then Some(Exec(p[0]))
      else if p[1] == "console" then Some(Console(p[0]))
      else if p[1] == "logs" then Some(Logs(p[0]))
      else if p[1] == "snapshots" then Some(Snapshots(p[0]))
      else if p[1] == "backups" then Some(Backups(p[0]))
      else None
    case 3 =>
      if p[1] == "logs" then Some(Log(p[0], p[2]))
      else if p[1] == "snapshots" then Some(Snapshot(p[0], p[2]))
      else if p[1] == "backups" then Some(Backup(p[0], p[2]))
      else None
    case 4 => if p[1] == "backups" && p[3] == "export" then Some(Export(p[0], p[2])) else None
    case _ => None
  }

  function IdentifyPool(p: seq<string>): Option<Resource> {
    match |p|
    case 0 => Some(Pools)
    case 1 => Some(Pool(p[0]))
    case 2 =>
      if p[1] == "resources" then Some(PoolResources(p[0]))
      else if p[1] == "volumes" then Some(Volumes(p[0]))
      else None
    case 4 => if p[1] == "volumes" then Some(Volume(p[0], p[2], p[3])) else None
    case _ => None
  }

  function IdentifyNetwork(p: seq<string>): Option<Resource> {
    match |p|
    case 0 => Some(Networks)
    case 1 => Some(Network(p[0]))
    case 2 => if p[1] == "state" then Some(NetworkState(p[0])) else None
    case _ => None
  }

  function IdentifyImage(p: seq<string>): Option<Resource> {
    match |p|
    case 0 => Some(Images)
    case 1 => if p[0] == "aliases" then Some(Aliases) else Some(Image(p[0]))
    case 2 => if p[0] == "aliases" then Some(Alias(p[1])) else None
    case _ => None
  }

  function IdentifyProject(p: seq<string>): Option<Resource> {
    match |p|
    case 0 => Some(Projects)
    case 1 => Some(Project(p[0]))
    case _ => None
  }

  function IdentifyOperation(p: seq<string>): Option<Resource> {
    match |p|
    case 0 => Some(Operations)
    case 1 => Some(Operation(p[0]))
    case 2 =>
      if p[1] == "wait" then Some(Wait(p[0]))
      else if p[1] == "websocket" then Some(Socket(p[0]))
      else None
    case _ => None
  }

  /** The image whose fingerprint is `aliases` cannot be told from the collection of aliases. */
  function Canonical(r: Resource): Resource {
    if r == Image("aliases") then Aliases else r
  }

  predicate NoQuery(s: string) {
    forall i :: 0 <= i < |s| ==> s[i] != '?' && s[i] != '#'
  }

  lemma {:induction false} PlainJoin(parts: seq<string>)
    requires |parts| > 0 && forall p :: p in parts ==> Plain(p)
    ensures NoQuery(Join(parts))
  {
    assert parts[0] in parts;
    if |parts| > 1 {
      PlainJoin(parts[1..]);
    }
  }

  lemma {:induction false} WholePath(url: string)
    requires NoQuery(url)
    ensures PathPart(url) == url
  {
    if url != "" {
      WholePath(url[1..]);
    }
  }

  /** The parts of a URL's path are plain, whatever the URL. */
  lemma {:induction false} PathPartsArePlain(url: string)
    ensures forall p :: p in Split(PathPart(url)) ==> Plain(p)
  {
    if url != "" && url[0] != '?' && url[0] != '#' {
      PathPartsArePlain(url[1..]);
      var rest := Split(PathPart(url[1..]));
      assert PathPart(url)[1..] == PathPart(url[1..]) && rest[0] in rest;
      if url[0] != '/' {
        assert Split(PathPart(url)) == [[url[0]] + rest[0]] + rest[1..];
      }
    }
  }

  lemma {:induction false} JoinConcat(front: seq<string>, parts: seq<string>)
    requires |front| > 0 && |parts| > 0
    ensures Join(front + parts) == Join(front) + "/" + Join(parts)
  {
    if |front| == 1 {
      assert (front + parts)[1..] == parts;
    } else {
      JoinConcat(front[1..], parts);
      assert (front + parts)[1..] == front[1..] + parts;
    }
  }

  lemma UrlPrefixes(path: string)
    requires path != "" && path[0] != '/'
    ensures Url(path) == "" + "/" + ("1.0" + "/" + path)
  {
  }

  lemma JoinStart(parts: seq<string>)
    requires |parts| > 0 && parts[0] != ""
    ensures Join(parts) != "" && Join(parts)[0] == parts[0][0]
  {
  }

  /** Prefixing a relative path adds two parts in front; nothing else in the URL changes. */
  lemma PrefixedUrl(parts: seq<string>)
    requires |parts| > 0 && parts[0] != "" && forall p :: p in parts ==> Plain(p)
    ensures Split(PathPart(Url(Join(parts)))) == [""] + (["1.0"] + parts)
  {
    assert Plain(parts[0]);
    JoinStart(parts);
    UrlPrefixes(Join(parts));
    JoinConcat(["1.0"], parts);
    JoinConcat([""], ["1.0"] + parts);
    AllPlain(parts);
    PlainJoin([""] + (["1.0"] + parts));
    WholePath(Join([""] + (["1.0"] + parts)));
    SplitJoin([""] + (["1.0"] + parts));
  }

  lemma AllPlain(parts: seq<string>)
    requires forall p :: p in parts ==> Plain(p)
    ensures forall p :: p in [""] + (["1.0"] + parts) ==> Plain(p) && NoSlash(p)
  {
    forall p | p in [""] + (["1.0"] + parts)
      ensures Plain(p) && NoSlash(p)
    {
      assert p == "" || p == "1.0" || p in parts;
      if p == "1.0" {
        assert p[0] == '1' && p[1] == '.' && p[2] == '0';
      }
    }
  }

  lemma RootUrl()
    ensures ResourceUrl(Root) == "/" && PathPart(ResourceUrl(Root)) == "/" && Split("/") == ["", ""]
  {
    assert ["", ""][1..] == [""];
    assert PathPart("") == "" && Split("") == [""];
  }

  lemma SectionsDiffer()
    ensures |"instances"| == |"resources"| == 9 && |"storage-pools"| == 13 && |"networks"| == |"projects"| == 8
    ensures |"images"| == |"events"| == 6 && |"operations"| == 10 && |"events&type=operation"| == 21
    ensures "networks"[0] != "projects"[0] && "instances"[0] != "resources"[0] && "images"[0] != "events"[0]
  {
  }

  lemma InstancePartsIdentify(r: Resource)
    requires Section(r) == "instances"
    ensures IdentifyIn("instances", Rest(r)) == Some(r) && Canonical(r) == r
  {
    SectionsDiffer();
  }

  lemma PoolPartsIdentify(r: Resource)
    requires Section(r) == "storage-pools" || Section(r) == "networks" || Section(r) == "projects"
    ensures IdentifyIn(Section(r), Rest(r)) == Some(r) && Canonical(r) == r
  {
    SectionsDiffer();
  }

  lemma OtherPartsIdentify(r: Resource)
    requires r != Root && Section(r) != "instances"
    requires Section(r) != "storage-pools" && Section(r) != "networks" && Section(r) != "projects"
    ensures Section(r) != "" && IdentifyIn(Section(r), Rest(r)) == Some(Canonical(r))
  {
    SectionsDiffer();
  }

  /** Reading back a route's parts: by section, then by what follows. */
  lemma PartsIdentify(r: Resource)
    requires r != Root
    ensures Section(r) != "" && IdentifyIn(Section(r), Rest(r)) == Some(Canonical(r))
  {
    if Section(r) == "instances" {
      InstancePartsIdentify(r);
    } else if Section(r) == "storage-pools" || Section(r) == "networks" || Section(r) == "projects" {
      PoolPartsIdentify(r);
    } else {
      OtherPartsIdentify(r);
    }
  }

  lemma IdentifyPrefixed(section: string, rest: seq<string>)
    ensures Identify([""] + (["1.0"] + ([section] + rest))) == IdentifyIn(section, rest)
  {
    var parts := [""] + (["1.0"] + ([section] + rest));
    assert |parts| >= 3 && parts[0] == "" && parts[1] == "1.0" && parts[2] == section;
    assert parts[3..] == rest;
  }

  lemma PartsOfUrl(r: Resource)
    requires WellNamed(r) && Section(r) != ""
    ensures Identify(Split(PathPart(ResourceUrl(r)))) == IdentifyIn(Section(r), Rest(r))
  {
    PrefixedUrl(Parts(r));
    IdentifyPrefixed(Section(r), Rest(r));
  }

  /** Reading back the path of a request gives the resource and every name in it. */
  lemma PathIdentifies(r: Resource)
    requires WellNamed(r)
    ensures Identify(Split(PathPart(ResourceUrl(r)))) == Some(Canonical(r))
  {
    if r == Root {
      RootUrl();
    } else {
      PartsIdentify(r);
      PartsOfUrl(r);
    }
  }

  lemma SectionInitials(r: Resource)
    requires r != Root
    ensures Section(r) != "" && (Section(r)[0] == 'e' <==> r == Events)
  {
  }

  lemma PrefixedNoQuery(path: string)
    requires NoQuery(path)
    ensures NoQuery("/1.0/" + path)
  {
    var prefix := "/1.0/";
    assert NoQuery(prefix);
    assert forall i :: 0 <= i < |prefix + path| ==>
                         (prefix + path)[i] == if i < |prefix| then prefix[i] else path[i - |prefix|];
  }

  /** What a relative path asks for is the path itself, after the prefix. */
  lemma PlainUrl(r: Resource)
    requires WellNamed(r) && Section(r) != ""
    ensures PathPart(ResourceUrl(r)) == "/1.0/" + Join(Parts(r))
    ensures Join(Parts(r)) != "" && Join(Parts(r))[0] == Section(r)[0]
  {
    var parts := Parts(r);
    assert Plain(parts[0]);
    JoinStart(parts);
    PlainJoin(parts);
    PrefixedNoQuery(Join(parts));
    WholePath("/1.0/" + Join(parts));
  }

  lemma SixthCharacter(path: string)
    requires "/1.0/" + path == "/1.0/events"
    ensures |path| == 6 && path[0] == 'e'
  {
    assert |"/1.0/" + path| == |"/1.0/events"| == 11;
    assert ("/1.0/" + path)[5] == path[0] && "/1.0/events"[5] == 'e';
  }

  /** LXD's own events resource is requested by no route, whatever the names. */
  lemma NothingAsksForEvents(r: Resource)
    requires WellNamed(r)
    ensures PathPart(ResourceUrl(r)) != "/1.0/events"
  {
    if r == Root {
      RootUrl();
    } else {
      SectionInitials(r);
      PlainUrl(r);
      if "/1.0/" + Join(Parts(r)) == "/1.0/events" {
        SixthCharacter(Join(Parts(r)));
        EventsPath();
        assert false;
      }
    }
  }

  lemma EventsPath()
    ensures |Join(Parts(Events))| == 21
  {
    assert Parts(Events) == ["events&type=operation"];
  }

  lemma CanonicalPath(r: Resource)
    ensures Parts(Canonical(r)) == Parts(r)
  {
    if r == Image("aliases") {
      assert Section(Aliases) == Section(r) && Rest(Aliases) == Rest(r);
    }
  }

  /**
   * Two requests address the same LXD path exactly when they address the same resource, save that
   * an image named `aliases` collides with the collection of image aliases.
   */
  lemma PathsSeparateResources(a: Resource, b: Resource)
    requires WellNamed(a) && WellNamed(b)
    ensures PathPart(ResourceUrl(a)) == PathPart(ResourceUrl(b)) <==> Canonical(a) == Canonical(b)
  {
    PathIdentifies(a);
    PathIdentifies(b);
    CanonicalPath(a);
    CanonicalPath(b);
  }

  // ---- The table of paths ----

  /** `"/" + part` for each part. */
  function Slashed(parts: seq<string>): string {
    if parts == [] then "" else Slashed(parts[..|parts| - 1]) + "/" + parts[|parts| - 1]
  }

  lemma {:induction false} JoinSlashed(parts: seq<string>)
    requires |parts| > 0
    ensures "/" + Join(parts) == Slashed(parts)
  {
    var front, last := parts[..|parts| - 1], parts[|parts| - 1];
    if front == [] {
      assert Slashed(front) == "";
    } else {
      JoinSlashed(front);
      JoinConcat(front, [last]);
      assert front + [last] == parts;
      Regroup("/", Join(front), last);
    }
  }

  lemma UrlSlashed(r: Resource)
    requires r != Root
    ensures ResourceUrl(r) == "/1.0" + Slashed(Parts(r))
  {
    SectionInitials(r);
    JoinStart(Parts(r));
    SectionIsRelative(r);
    JoinSlashed(Parts(r));
    assert "/1.0/" + Join(Parts(r)) == "/1.0" + ("/" + Join(Parts(r)));
  }

  lemma SectionIsRelative(r: Resource)
    requires r != Root
    ensures Section(r) != "" && Section(r)[0] != '/'
  {
  }

  /** The URL of every request, part by part. Only the server's root is asked for outside `/1.0`. */
  lemma ResourceUrls(r: Resource)
    ensures ResourceUrl(Root) == "/"
    ensures r != Root ==>
              ResourceUrl(r) == "/1.0" + Slashed(
               match r
               case Root => []
               case Instances => ["instances"] + []
               case Instance(x) => ["instances"] + [x]
               case State(x) => ["instances"] + [x, "state"]
               case Exec(x) => ["instances"] + [x, "exec"]
               case Console(x) => ["instances"] + [x, "console"]
               case Logs(x) => ["instances"] + [x, "logs"]
               case Log(x, y) => ["instances"] + [x, "logs", y]
               case Snapshots(x) => ["instances"] + [x, "snapshots"]
               case Snapshot(x, y) => ["instances"] + [x, "snapshots", y]
               case Backups(x) => ["instances"] + [x, "backups"]
               case Backup(x, y) => ["instances"] + [x, "backups", y]
               case Export(x, y) => ["instances"] + [x, "backups", y, "export"]
               case Pools => ["storage-pools"] + []
               case Pool(x) => ["storage-pools"] + [x]
               case PoolResources(x) => ["storage-pools"] + [x, "resources"]
               case Volumes(x) => ["storage-pools"] + [x, "volumes"]
               case Volume(x, y, z) => ["storage-pools"] + [x, "volumes", y, z]
               case Networks => ["networks"] + []
               case Network(x) => ["networks"] + [x]
               case NetworkState(x) => ["networks"] + [x, "state"]
               case Projects => ["projects"] + []
               case Project(x) => ["projects"] + [x]
               case Images => ["images"] + []
               case Image(x) => ["images"] + [x]
               case Aliases => ["images"] + ["aliases"]
               case Alias(x) => ["images"] + ["aliases", x]
               case Operations => ["operations"] + []
               case Operation(x) => ["operations"] + [x]
               case Wait(x) => ["operations"] + [x, "wait"]
               case Socket(x) => ["operations"] + [x, "websocket"]
               case HostResources => ["resources"] + []
               case Events => ["events&type=operation"] + [])
  {
    RootUrl();
    if r != Root {
      UrlSlashed(r);
    }
  }
}
