/** The MCP servers of a remote host: what is generated for it, and what is accepted
    (src/hosts/codex-mcp-config.js).

    The generator writes the shared servers, reached over ssh, and the containers that run
    on the host.  The validator reads a configuration back and looks for a fault. */
module McpPreset {
  import opened Options
  import opened McpConfig

  datatype Preset = NoServers | Workspace | Unknown

  datatype Spec = Spec(name: Name, program: string, args: seq<string>)

  datatype Host = Host(hostId: string, capabilities: Option<set<string>>)

  // ---------------------------------------------------------------------
  // The servers
  // ---------------------------------------------------------------------

  const SHARED: seq<(Name, seq<string>)> := [
    ("requests", ["docker", "exec", "-i", "mcp-requests", "mcp-server-requests"]),
    ("playwright", ["docker", "exec", "-i", "mcp-playwright", "start-playwright-mcp"]),
    ("scout", ["docker", "exec", "-i", "mcp-project-scout", "node", "src/index.js", "--stdio"]),
    ("context7", ["docker", "exec", "-i", "mcp-context7", "context7-mcp"]),
    ("tavily", ["docker", "exec", "-i", "mcp-tavily", "tavily-mcp"]),
    ("agent_secret_broker", ["docker", "exec", "-i", "agent-secret-broker", "node", "src/index.js"])]

  const DOCKER_ARGS: seq<string> := ["exec", "-i", "mcp-docker", "mcp-server-docker"]

  const PLAYWRIGHT_PROFILE := "PLAYWRIGHT_USER_DATA_DIR=" + "/data/playwright-profile" + "/profile-codex"

  const PLAYWRIGHT_ARGS: seq<string> :=
    ["exec", "-i", "-e", PLAYWRIGHT_PROFILE, "mcp-playwright", "start-playwright-mcp"]

  const REQUESTS_ARGS: seq<string> := ["exec", "-i", "mcp-requests", "mcp-server-requests"]

  const MARKERS: seq<string> := ["mcp-pitlane", "pitlane-compact-mcp", "pitlane-sse-gateway"]

  function SshOptions(connectTimeout: string): seq<string> {
    ["-o", "BatchMode=yes", "-o", "ControlMaster=auto", "-o", "ControlPersist=10m",
     "-o", "ControlPath=~/.ssh/codex-mcp-%r@%h:%p", "-o", "ConnectTimeout=" + connectTimeout]
  }

  function SharedSpec(k: nat, connectTimeout: string, target: string): Spec
    requires k < |SHARED|
  {
    Spec(SHARED[k].0, "ssh", SshOptions(connectTimeout) + ["-T", target] + SHARED[k].1)
  }

  function SharedSpecs(n: nat, connectTimeout: string, target: string): (specs: seq<Spec>)
    requires n <= |SHARED|
    ensures |specs| == n && (forall k :: 0 <= k < n ==> specs[k] == SharedSpec(k, connectTimeout, target))
  {
    if n == 0 then [] else SharedSpecs(n - 1, connectTimeout, target) + [SharedSpec(n - 1, connectTimeout, target)]
  }

  predicate HasCapability(host: Host, capability: string) {
    host.capabilities.Some? && capability in host.capabilities.value
  }

  predicate RendersOptional(host: Host, containers: set<string>, container: string) {
    container in containers && HasCapability(host, container)
  }

  function When(condition: bool, spec: Spec): seq<Spec> {
    if condition then [spec] else []
  }

  const DockerSpec := Spec("docker", "docker", DOCKER_ARGS)

  function PlaywrightSpec(host: Host): Spec {
    Spec(host.hostId + "-playwright", "docker", PLAYWRIGHT_ARGS)
  }

  function RequestsSpec(host: Host): Spec {
    Spec(host.hostId + "-requests", "docker", REQUESTS_ARGS)
  }

  function LocalSpecs(host: Host, containers: set<string>): seq<Spec> {
    When("mcp-docker" in containers, DockerSpec)
    + (When(RendersOptional(host, containers, "mcp-playwright"), PlaywrightSpec(host))
       + When(RendersOptional(host, containers, "mcp-requests"), RequestsSpec(host)))
  }

  function ServerSpecs(host: Host, containers: set<string>, connectTimeout: string, target: string): seq<Spec> {
    SharedSpecs(|SHARED|, connectTimeout, target) + LocalSpecs(host, containers)
  }

  function TableOf(spec: Spec): McpTable {
    McpTable(spec.name, [Line(Text(Command(spec.program)), 0), Line(Text(Args(spec.args)), 0)])
  }

  function TablesOf(specs: seq<Spec>): (tables: seq<McpTable>)
    ensures |tables| == |specs| && (forall k :: 0 <= k < |specs| ==> tables[k] == TableOf(specs[k]))
  {
    seq(|specs|, k requires 0 <= k < |specs| => TableOf(specs[k]))
  }

  /** The generated text, or None where the source throws: no such preset, or no host id. */
  function BuildHybridCodexMcpConfigText(
    lines: Lines, preset: Preset, host: Host, containers: set<string>, connectTimeout: string, target: string): Option<Lines>
  {
    match preset
    case Unknown => None
    case NoServers => Some(Replaced(lines, []))
    case Workspace =>
      if host.hostId == "" then None
      else
        var tables := TablesOf(ServerSpecs(host, containers, connectTimeout, target));
        Some(Replaced(lines, Render(tables, |tables|)))
  }

  // ---------------------------------------------------------------------
  // The validator
  // ---------------------------------------------------------------------

  predicate MatchesAt(s: string, part: string, i: nat) {
    i + |part| <= |s| && s[i..i + |part|] == part
  }

  predicate Includes(s: string, part: string) {
    exists i: nat :: i <= |s| && MatchesAt(s, part, i)
  }

  predicate StartsWith(s: string, part: string) {
    MatchesAt(s, part, 0)
  }

  predicate EndsWith(s: string, part: string) {
    |part| <= |s| && MatchesAt(s, part, |s| - |part|)
  }

  predicate Marked(s: string) {
    exists k :: 0 <= k < |MARKERS| && Includes(s, MARKERS[k])
  }

  predicate LineMarked(line: Line) {
    match line.kind
    case McpServer(name) => Marked(name)
    case Text(Command(program)) => Marked(program)
    case Text(Args(values)) => exists k :: 0 <= k < |values| && Marked(values[k])
    case Text(Other(text)) => Marked(text)
    case _ => false
  }

  predicate IsReservedPitlaneMcpBlock(name: Name, block: Lines) {
    name == "pitlane" || exists k :: 0 <= k < |block| && LineMarked(block[k])
  }

  /** The values occur one after the other. */
  predicate Lists(values: seq<string>, wanted: seq<string>, at: nat) {
    at + |wanted| <= |values| && values[at..at + |wanted|] == wanted
  }

  predicate HasCommand(block: Lines, program: string) {
    exists k :: 0 <= k < |block| && block[k].kind == Text(Command(program))
  }

  predicate LineLists(line: Line, wanted: seq<string>) {
    line.kind.Text? && line.kind.setting.Args? && exists at: nat :: at <= |line.kind.setting.values| && Lists(line.kind.setting.values, wanted, at)
  }

  predicate HasArgs(block: Lines, wanted: seq<string>) {
    exists k :: 0 <= k < |block| && LineLists(block[k], wanted)
  }

  predicate UsesLocalDockerCommand(block: Lines, args: seq<string>) {
    HasCommand(block, "docker") && HasArgs(block, args)
  }

  predicate UsesSharedSshCommand(block: Lines, target: string, args: seq<string>) {
    HasCommand(block, "ssh") && HasArgs(block, ["-T", target]) && HasArgs(block, args)
  }

  datatype Fault =
    | PresetThrows
    | UnexpectedServers
    | ReservedServer
    | MissingShared
    | SharedNotOverSsh
    | MissingDocker
    | DockerNotLocal
    | StaleDocker
    | ForeignHostServer
    | MissingDeclared
    | UndeclaredServer
    | OptionalNotLocal

  predicate OptionalDeclaredMissing(blocks: map<Name, Lines>, declared: set<string>, capability: string, name: Name) {
    capability in declared && name !in blocks
  }

  predicate OptionalUndeclared(blocks: map<Name, Lines>, declared: set<string>, capability: string, name: Name) {
    name in blocks && capability !in declared
  }

  predicate OptionalNotDocker(blocks: map<Name, Lines>, name: Name, args: seq<string>) {
    name in blocks && !UsesLocalDockerCommand(blocks[name], args)
  }

  predicate HasReserved(blocks: map<Name, Lines>) {
    exists name :: name in blocks && IsReservedPitlaneMcpBlock(name, blocks[name])
  }

  predicate LacksShared(blocks: map<Name, Lines>) {
    exists k :: 0 <= k < |SHARED| && SHARED[k].0 !in blocks
  }

  predicate HasWrongShared(blocks: map<Name, Lines>, target: string) {
    exists k :: 0 <= k < |SHARED| && SHARED[k].0 in blocks && !UsesSharedSshCommand(blocks[SHARED[k].0], target, SHARED[k].1)
  }

  predicate HasStaleDocker(blocks: map<Name, Lines>) {
    exists name :: name in blocks && EndsWith(name, "-docker")
  }

  predicate HasForeignServer(blocks: map<Name, Lines>, hostId: string) {
    exists name :: name in blocks && (EndsWith(name, "-playwright") || EndsWith(name, "-requests")) && !StartsWith(name, hostId + "-")
  }

  /** The first fault, in the order in which the source looks for them. */
  function WorkspaceFault(blocks: map<Name, Lines>, host: Host, target: string): Option<Fault> {
    var playwright := host.hostId + "-playwright";
    var requests := host.hostId + "-requests";
    var declared := host.capabilities.Or(Some({})).value;
    if HasReserved(blocks) then Some(ReservedServer)
    else if LacksShared(blocks) then Some(MissingShared)
    else if HasWrongShared(blocks, target) then Some(SharedNotOverSsh)
    else if "docker" !in blocks then Some(MissingDocker)
    else if !UsesLocalDockerCommand(blocks["docker"], DOCKER_ARGS) then Some(DockerNotLocal)
    else if HasStaleDocker(blocks) then Some(StaleDocker)
    else if HasForeignServer(blocks, host.hostId) then Some(ForeignHostServer)
    else if host.capabilities.Some?
            && (OptionalDeclaredMissing(blocks, declared, "mcp-playwright", playwright)
                || OptionalDeclaredMissing(blocks, declared, "mcp-requests", requests)) then Some(MissingDeclared)
    else if host.capabilities.Some?
            && (OptionalUndeclared(blocks, declared, "mcp-playwright", playwright)
                || OptionalUndeclared(blocks, declared, "mcp-requests", requests)) then Some(UndeclaredServer)
    else if OptionalNotDocker(blocks, playwright, PLAYWRIGHT_ARGS) || OptionalNotDocker(blocks, requests, REQUESTS_ARGS) then
      Some(OptionalNotLocal)
    else None
  }

  function ValidateHybridWorkerMcpConfigText(lines: Lines, preset: Preset, host: Host, target: string): Option<Fault> {
    var blocks := Parsed(lines);
    match preset
    case Unknown => Some(PresetThrows)
    case NoServers => if |blocks| == 0 then None else Some(UnexpectedServers)
    case Workspace => WorkspaceFault(blocks, host, target)
  }

  // ---------------------------------------------------------------------
  // Markers
  // ---------------------------------------------------------------------

  /** Every marker has a "pi" in it, which no constant text of this module has. */
  predicate PiFree(s: string) {
    forall i: nat :: i + 1 < |s| && s[i] == 'p' ==> s[i + 1] != 'i'
  }

  lemma MatchHasPi(s: string, k: nat, i: nat)
    requires k < |MARKERS| && MatchesAt(s, MARKERS[k], i)
    ensures exists j: nat :: j + 1 < |s| && s[j] == 'p' && s[j + 1] == 'i'
  {
    var at := if k == 0 then 4 else 0;
    MarkerHasPi(k);
    var part := s[i..i + |MARKERS[k]|];
    assert part == MARKERS[k];
    assert s[i + at] == part[at] && s[i + at + 1] == part[at + 1];
  }

  lemma Unmarked(s: string)
    requires PiFree(s)
    ensures !Marked(s)
  {
    if Marked(s) {
      var k :| 0 <= k < |MARKERS| && Includes(s, MARKERS[k]);
      var i: nat :| i <= |s| && MatchesAt(s, MARKERS[k], i);
      MatchHasPi(s, k, i);
    }
  }

  lemma PiFreePlus(a: string, b: string)
    requires PiFree(a) && PiFree(b) && b != "" && b[0] != 'i'
    ensures PiFree(a + b)
  {
  }

  lemma ProfilePiFree()
    ensures PiFree(PLAYWRIGHT_PROFILE)
  {
    PiFreePlus("PLAYWRIGHT_USER_DATA_DIR=", "/data/playwright-profile");
    PiFreePlus("PLAYWRIGHT_USER_DATA_DIR=" + "/data/playwright-profile", "/profile-codex");
  }

  lemma MarkerHasPi(k: nat)
    requires k < |MARKERS|
    ensures var at := if k == 0 then 4 else 0; MARKERS[k][at] == 'p' && MARKERS[k][at + 1] == 'i' && at + 1 < |MARKERS[k]|
  {
  }

  predicate NoneMarked(values: seq<string>) {
    forall k :: 0 <= k < |values| ==> !Marked(values[k])
  }

  lemma AllUnmarked(values: seq<string>)
    requires forall k :: 0 <= k < |values| ==> PiFree(values[k])
    ensures NoneMarked(values)
  {
    hide Marked;
    forall k | 0 <= k < |values| ensures !Marked(values[k]) {
      Unmarked(values[k]);
    }
  }

  lemma SharedNameUnmarked(k: nat)
    requires k < |SHARED|
    ensures !Marked(SHARED[k].0)
  {
    hide Marked;
    Unmarked(SHARED[k].0);
  }

  lemma SharedUnmarked(k: nat)
    requires k < |SHARED|
    ensures !Marked(SHARED[k].0) && NoneMarked(SHARED[k].1)
  {
    hide Marked, NoneMarked;
    SharedNameUnmarked(k);
    if k == 0 {
      AllUnmarked(SHARED[0].1);
    } else if k == 1 {
      AllUnmarked(SHARED[1].1);
    } else if k == 2 {
      AllUnmarked(SHARED[2].1);
    } else if k == 3 {
      AllUnmarked(SHARED[3].1);
    } else if k == 4 {
      AllUnmarked(SHARED[4].1);
    } else {
      AllUnmarked(SHARED[5].1);
    }
  }

  lemma LocalUnmarked()
    ensures NoneMarked(DOCKER_ARGS) && NoneMarked(PLAYWRIGHT_ARGS) && NoneMarked(REQUESTS_ARGS)
    ensures !Marked("docker") && !Marked("ssh")
  {
    hide Marked, NoneMarked;
    AllUnmarked(DOCKER_ARGS);
    ProfilePiFree();
    AllUnmarked(PLAYWRIGHT_ARGS);
    AllUnmarked(REQUESTS_ARGS);
    Unmarked("docker");
    Unmarked("ssh");
  }

  function FixedSshOptions(): seq<string> {
    ["-o", "BatchMode=yes", "-o", "ControlMaster=auto", "-o", "ControlPersist=10m", "-o", "ControlPath=~/.ssh/codex-mcp-%r@%h:%p", "-o"]
  }

  lemma SshUnmarked()
    ensures NoneMarked(FixedSshOptions()) && NoneMarked(["-T"])
  {
    hide Marked, NoneMarked;
    AllUnmarked(FixedSshOptions());
    AllUnmarked(["-T"]);
  }

  /** A marker in a name made of a host id and a suffix lies in the host id. */
  lemma MarkedSuffix(hostId: string, suffix: string)
    requires suffix == "-playwright" || suffix == "-requests"
    ensures Marked(hostId + suffix) <==> Marked(hostId)
  {
    if Marked(hostId + suffix) {
      var k :| 0 <= k < |MARKERS| && Includes(hostId + suffix, MARKERS[k]);
      var i: nat :| i <= |hostId + suffix| && MatchesAt(hostId + suffix, MARKERS[k], i);
      MarkerWithin(hostId, suffix, k, i);
      assert Includes(hostId, MARKERS[k]);
    }
    if Marked(hostId) {
      var k :| 0 <= k < |MARKERS| && Includes(hostId, MARKERS[k]);
      var i: nat :| i <= |hostId| && MatchesAt(hostId, MARKERS[k], i);
      assert (hostId + suffix)[i..i + |MARKERS[k]|] == hostId[i..i + |MARKERS[k]|];
      assert MatchesAt(hostId + suffix, MARKERS[k], i);
      assert Includes(hostId + suffix, MARKERS[k]);
    }
  }

  /** Which letters of a suffix a marker would have to continue with. */
  lemma SuffixCannotContinue(suffix: string, k: nat, d: nat)
    requires suffix == "-playwright" || suffix == "-requests"
    requires k < |MARKERS| && d < |MARKERS[k]|
    ensures MARKERS[k][d] != suffix[0]
         || (d + 1 < |MARKERS[k]| && MARKERS[k][d + 1] != suffix[1])
         || (d + 2 < |MARKERS[k]| && MARKERS[k][d + 2] != suffix[2])
  {
    assert MARKERS[k][d] == '-' ==> d in {3, 7, 11, 15};
  }

  lemma SuffixCannotContain(suffix: string, k: nat, i: nat)
    requires suffix == "-playwright" || suffix == "-requests"
    requires k < |MARKERS|
    ensures !MatchesAt(suffix, MARKERS[k], i)
  {
    Unmarked(suffix);
    if MatchesAt(suffix, MARKERS[k], i) {
      assert Includes(suffix, MARKERS[k]);
      assert false;
    }
  }

  lemma MarkerWithin(hostId: string, suffix: string, k: nat, i: nat)
    requires suffix == "-playwright" || suffix == "-requests"
    requires k < |MARKERS| && MatchesAt(hostId + suffix, MARKERS[k], i)
    ensures MatchesAt(hostId, MARKERS[k], i)
  {
    var s, m, h := hostId + suffix, MARKERS[k], |hostId|;
    forall j | 0 <= j < |m| ensures s[i + j] == m[j] {
      assert s[i..i + |m|][j] == s[i + j];
    }
    if h <= i {
      assert suffix[i - h..i - h + |m|] == s[i..i + |m|];
      SuffixCannotContain(suffix, k, i - h);
    } else if h < i + |m| {
      var d := h - i;
      assert s[h] == suffix[0] && s[h + 1] == suffix[1] && s[h + 2] == suffix[2];
      assert s[i + d] == m[d];
      assert d + 1 < |m| ==> s[i + (d + 1)] == m[d + 1];
      assert d + 2 < |m| ==> s[i + (d + 2)] == m[d + 2];
      SuffixCannotContinue(suffix, k, d);
    } else {
      assert hostId[i..i + |m|] == s[i..i + |m|];
    }
  }

  // ---------------------------------------------------------------------
  // The blocks of a generated text
  // ---------------------------------------------------------------------

  predicate Distinct(specs: seq<Spec>) {
    forall i, j :: 0 <= i < j < |specs| ==> specs[i].name != specs[j].name
  }

  /** The block of a server, perhaps with an empty line at its end. */
  predicate Shows(block: Lines, spec: Spec) {
    block == TableLines(TableOf(spec)) || block == TableLines(TableOf(spec)) + [Empty]
  }

  /** The blocks are those of the servers. */
  predicate Describes(blocks: map<Name, Lines>, specs: seq<Spec>) {
    && (forall k :: 0 <= k < |specs| ==> specs[k].name in blocks && Shows(blocks[specs[k].name], specs[k]))
    && (forall name :: name in blocks ==> exists k :: 0 <= k < |specs| && specs[k].name == name)
  }

  lemma {:induction false} ServersOfDistinct(specs: seq<Spec>, n: nat)
    requires n <= |specs| && Distinct(specs)
    ensures var servers := ServersOf(TablesOf(specs), n);
      && (forall k :: 0 <= k < n ==> specs[k].name in servers && servers[specs[k].name] == TableLines(TableOf(specs[k])))
      && (forall name :: name in servers ==> exists k :: 0 <= k < n && specs[k].name == name)
  {
    hide TableOf, TableLines;
    if n != 0 {
      ServersOfDistinct(specs, n - 1);
      assert TablesOf(specs)[n - 1].name == specs[n - 1].name by { NameOf(specs[n - 1]); }
    }
  }

  lemma NameOf(spec: Spec)
    ensures TableOf(spec).name == spec.name && IsTable(TableOf(spec))
  {
  }

  lemma BuiltDescribes(lines: Lines, specs: seq<Spec>)
    requires specs != [] && Distinct(specs)
    ensures var tables := TablesOf(specs); Describes(Parsed(Replaced(lines, Render(tables, |tables|))), specs)
  {
    hide Parsed, Replaced, Render, TableLines, IsTable, TableOf, ServersOf;
    var tables := TablesOf(specs);
    forall k | 0 <= k < |tables| ensures IsTable(tables[k]) {
      NameOf(specs[k]);
    }
    WrittenServersAreRead(lines, tables);
    ServersOfDistinct(specs, |specs|);
  }

  lemma ShownUsesArgs(block: Lines, spec: Spec, wanted: seq<string>, at: nat)
    requires Shows(block, spec) && Lists(spec.args, wanted, at)
    ensures HasCommand(block, spec.program) && HasArgs(block, wanted)
  {
    assert block[1].kind == Text(Command(spec.program));
    assert block[2].kind == Text(Args(spec.args));
    assert LineLists(block[2], wanted);
  }

  predicate SpecReserved(spec: Spec) {
    spec.name == "pitlane" || Marked(spec.name) || Marked(spec.program) || !NoneMarked(spec.args)
  }

  lemma ShownReserved(block: Lines, spec: Spec)
    requires Shows(block, spec)
    ensures IsReservedPitlaneMcpBlock(spec.name, block) <==> SpecReserved(spec)
  {
    hide Marked;
    assert block[0].kind == McpServer(spec.name);
    assert block[1].kind == Text(Command(spec.program));
    assert block[2].kind == Text(Args(spec.args));
    assert LineMarked(block[0]) <==> Marked(spec.name);
    assert LineMarked(block[1]) <==> Marked(spec.program);
    assert LineMarked(block[2]) <==> !NoneMarked(spec.args);
    assert |block| == 4 ==> !LineMarked(block[3]);
  }

  // ---------------------------------------------------------------------
  // The names
  // ---------------------------------------------------------------------

  predicate Dashed(name: Name) {
    '-' in name
  }

  lemma SharedNames()
    ensures forall k :: 0 <= k < |SHARED| ==> !Dashed(SHARED[k].0) && SHARED[k].0 != "docker"
    ensures forall i, j :: 0 <= i < j < |SHARED| ==> SHARED[i].0 != SHARED[j].0
    ensures !Dashed("docker")
  {
  }

  lemma HostNames(host: Host)
    ensures var p, r := PlaywrightSpec(host).name, RequestsSpec(host).name;
      && p != r && Dashed(p) && Dashed(r)
      && p[|p| - 1] == 't' && r[|r| - 1] == 's'
      && StartsWith(p, host.hostId + "-") && StartsWith(r, host.hostId + "-")
  {
    var p, r := PlaywrightSpec(host).name, RequestsSpec(host).name;
    var n := |host.hostId|;
    assert p[n] == '-' && r[n] == '-';
    assert p[..n + 1] == host.hostId + "-" && r[..n + 1] == host.hostId + "-";
  }

  /** A local server is one of three. */
  lemma LocalNames(host: Host, containers: set<string>)
    ensures Distinct(LocalSpecs(host, containers))
    ensures forall spec :: spec in LocalSpecs(host, containers) <==>
      || (spec == DockerSpec && "mcp-docker" in containers)
      || (spec == PlaywrightSpec(host) && RendersOptional(host, containers, "mcp-playwright"))
      || (spec == RequestsSpec(host) && RendersOptional(host, containers, "mcp-requests"))
  {
    hide PlaywrightSpec, RequestsSpec, RendersOptional, Dashed;
    HostNames(host);
    SharedNames();
  }

  lemma SpecsAreDistinct(host: Host, containers: set<string>, connectTimeout: string, target: string)
    ensures Distinct(ServerSpecs(host, containers, connectTimeout, target))
  {
    hide LocalSpecs, Dashed, SharedSpecs;
    var shared, locals := SharedSpecs(|SHARED|, connectTimeout, target), LocalSpecs(host, containers);
    SharedNames();
    HostNames(host);
    LocalNames(host, containers);
    forall i, j | 0 <= i < |shared| && 0 <= j < |locals| ensures shared[i].name != locals[j].name {
      assert locals[j] in locals;
      assert shared[i] == SharedSpec(i, connectTimeout, target);
    }
  }

  // ---------------------------------------------------------------------
  // Generator and validator
  // ---------------------------------------------------------------------

  lemma NoneMarkedPlus(a: seq<string>, b: seq<string>)
    ensures NoneMarked(a + b) <==> NoneMarked(a) && NoneMarked(b)
  {
    hide Marked;
    if NoneMarked(a + b) {
      forall k | 0 <= k < |a| ensures !Marked(a[k]) {
        assert a[k] == (a + b)[k];
      }
      forall k | 0 <= k < |b| ensures !Marked(b[k]) {
        assert b[k] == (a + b)[|a| + k];
      }
    }
  }

  lemma NoneMarkedOne(s: string)
    ensures NoneMarked([s]) <==> !Marked(s)
  {
    assert [s][0] == s;
  }

  lemma SharedReserved(k: nat, connectTimeout: string, target: string)
    requires k < |SHARED|
    ensures SpecReserved(SharedSpec(k, connectTimeout, target)) <==> Marked("ConnectTimeout=" + connectTimeout) || Marked(target)
  {
    hide Marked, NoneMarked;
    SharedUnmarked(k);
    LocalUnmarked();
    SshUnmarked();
    var connect := "ConnectTimeout=" + connectTimeout;
    NoneMarkedOne(connect);
    NoneMarkedOne(target);
    NoneMarkedPlus(FixedSshOptions(), [connect]);
    assert SshOptions(connectTimeout) == FixedSshOptions() + [connect];
    NoneMarkedPlus(["-T"], [target]);
    assert ["-T", target] == ["-T"] + [target];
    NoneMarkedPlus(SshOptions(connectTimeout), ["-T", target]);
    NoneMarkedPlus(SshOptions(connectTimeout) + ["-T", target], SHARED[k].1);
  }

  lemma LocalReserved(host: Host)
    ensures !SpecReserved(DockerSpec)
    ensures SpecReserved(PlaywrightSpec(host)) <==> Marked(host.hostId)
    ensures SpecReserved(RequestsSpec(host)) <==> Marked(host.hostId)
  {
    hide Marked, NoneMarked;
    LocalUnmarked();
    MarkedSuffix(host.hostId, "-playwright");
    MarkedSuffix(host.hostId, "-requests");
    HostNames(host);
    assert !Dashed("pitlane");
  }

  /** What a generated text depends on contains no reserved marker. */
  predicate NoReservedMarker(host: Host, containers: set<string>, connectTimeout: string, target: string) {
    && !Marked(target) && !Marked("ConnectTimeout=" + connectTimeout)
    && (RendersOptional(host, containers, "mcp-playwright") || RendersOptional(host, containers, "mcp-requests") ==> !Marked(host.hostId))
  }

  /** The required container runs, and so does each declared optional one. */
  predicate ContainersRun(host: Host, containers: set<string>) {
    && "mcp-docker" in containers
    && (HasCapability(host, "mcp-playwright") ==> "mcp-playwright" in containers)
    && (HasCapability(host, "mcp-requests") ==> "mcp-requests" in containers)
  }

  /** Every server is a shared or a local one. */
  lemma SpecsAre(host: Host, containers: set<string>, connectTimeout: string, target: string, k: nat)
    requires k < |ServerSpecs(host, containers, connectTimeout, target)|
    ensures var spec := ServerSpecs(host, containers, connectTimeout, target)[k];
      if k < |SHARED| then spec == SharedSpec(k, connectTimeout, target) else spec in LocalSpecs(host, containers)
  {
    hide LocalSpecs, SharedSpecs, SharedSpec;
    var shared := SharedSpecs(|SHARED|, connectTimeout, target);
    if k < |SHARED| {
      assert shared[k] == SharedSpec(k, connectTimeout, target);
    }
  }

  lemma LocalAt(host: Host, containers: set<string>, connectTimeout: string, target: string, spec: Spec) returns (k: nat)
    requires spec in LocalSpecs(host, containers)
    ensures k < |ServerSpecs(host, containers, connectTimeout, target)| && ServerSpecs(host, containers, connectTimeout, target)[k] == spec
  {
    hide LocalSpecs, SharedSpecs;
    var i :| 0 <= i < |LocalSpecs(host, containers)| && LocalSpecs(host, containers)[i] == spec;
    k := |SHARED| + i;
  }

  lemma ReservedIff(blocks: map<Name, Lines>, host: Host, containers: set<string>, connectTimeout: string, target: string)
    requires Describes(blocks, ServerSpecs(host, containers, connectTimeout, target))
    ensures HasReserved(blocks) <==> !NoReservedMarker(host, containers, connectTimeout, target)
  {
    hide IsReservedPitlaneMcpBlock, SpecReserved, Marked, LocalSpecs, SharedSpecs, SharedSpec, Shows, ServerSpecs, RendersOptional, PlaywrightSpec, RequestsSpec;
    var specs := ServerSpecs(host, containers, connectTimeout, target);
    LocalNames(host, containers);
    LocalReserved(host);
    forall k | 0 <= k < |specs| ensures IsReservedPitlaneMcpBlock(specs[k].name, blocks[specs[k].name]) <==> SpecReserved(specs[k]) {
      ShownReserved(blocks[specs[k].name], specs[k]);
    }
    if name :| name in blocks && IsReservedPitlaneMcpBlock(name, blocks[name]) {
      var k :| 0 <= k < |specs| && specs[k].name == name;
      SpecsAre(host, containers, connectTimeout, target, k);
      if k < |SHARED| {
        SharedReserved(k, connectTimeout, target);
      }
    }
    if !NoReservedMarker(host, containers, connectTimeout, target) {
      if Marked(target) || Marked("ConnectTimeout=" + connectTimeout) {
        SharedReserved(0, connectTimeout, target);
        SharedAt(host, containers, connectTimeout, target, 0);
      } else {
        var spec := if RendersOptional(host, containers, "mcp-playwright") then PlaywrightSpec(host) else RequestsSpec(host);
        var k := LocalAt(host, containers, connectTimeout, target, spec);
        assert specs[k].name in blocks;
      }
    }
  }

  lemma SharedAt(host: Host, containers: set<string>, connectTimeout: string, target: string, k: nat)
    requires k < |SHARED|
    ensures k < |ServerSpecs(host, containers, connectTimeout, target)|
    ensures ServerSpecs(host, containers, connectTimeout, target)[k] == SharedSpec(k, connectTimeout, target)
  {
    hide LocalSpecs, SharedSpecs, SharedSpec;
    var shared := SharedSpecs(|SHARED|, connectTimeout, target);
    assert shared[k] == SharedSpec(k, connectTimeout, target);
  }

  lemma SharedIsFine(blocks: map<Name, Lines>, host: Host, containers: set<string>, connectTimeout: string, target: string, k: nat)
    requires k < |SHARED| && Describes(blocks, ServerSpecs(host, containers, connectTimeout, target))
    ensures SHARED[k].0 in blocks && UsesSharedSshCommand(blocks[SHARED[k].0], target, SHARED[k].1)
  {
    hide Shows, ServerSpecs, HasCommand, HasArgs;
    SharedAt(host, containers, connectTimeout, target, k);
    var spec := SharedSpec(k, connectTimeout, target);
    var block := blocks[spec.name];
    var options := SshOptions(connectTimeout);
    assert spec.args[|options|..|options| + 2] == ["-T", target];
    ShownUsesArgs(block, spec, ["-T", target], |options|);
    assert spec.args[|options| + 2..|options| + 2 + |SHARED[k].1|] == SHARED[k].1;
    ShownUsesArgs(block, spec, SHARED[k].1, |options| + 2);
  }

  lemma LocalIsFine(blocks: map<Name, Lines>, host: Host, containers: set<string>, connectTimeout: string, target: string, spec: Spec)
    requires Describes(blocks, ServerSpecs(host, containers, connectTimeout, target))
    requires spec in LocalSpecs(host, containers) && spec.program == "docker"
    ensures spec.name in blocks && UsesLocalDockerCommand(blocks[spec.name], spec.args)
  {
    hide Shows, ServerSpecs, HasCommand, HasArgs, LocalSpecs;
    var k := LocalAt(host, containers, connectTimeout, target, spec);
    assert ServerSpecs(host, containers, connectTimeout, target)[k].name in blocks;
    assert spec.args[0..0 + |spec.args|] == spec.args;
    ShownUsesArgs(blocks[spec.name], spec, spec.args, 0);
  }

  /** A name with a dash in it is that of an optional server of this host. */
  lemma DashedIsHosts(blocks: map<Name, Lines>, host: Host, containers: set<string>, connectTimeout: string, target: string, name: Name)
    requires Describes(blocks, ServerSpecs(host, containers, connectTimeout, target)) && name in blocks
    ensures Dashed(name) ==> name == PlaywrightSpec(host).name || name == RequestsSpec(host).name
    ensures name == "docker" ==> "mcp-docker" in containers
    ensures name == PlaywrightSpec(host).name ==> RendersOptional(host, containers, "mcp-playwright")
    ensures name == RequestsSpec(host).name ==> RendersOptional(host, containers, "mcp-requests")
  {
    hide Shows, ServerSpecs, LocalSpecs, Dashed, PlaywrightSpec, RequestsSpec, RendersOptional;
    var k :| 0 <= k < |ServerSpecs(host, containers, connectTimeout, target)| && ServerSpecs(host, containers, connectTimeout, target)[k].name == name;
    SpecsAre(host, containers, connectTimeout, target, k);
    LocalNames(host, containers);
    SharedNames();
    HostNames(host);
  }

  lemma SuffixIsDashed(name: Name, suffix: string)
    requires EndsWith(name, suffix) && suffix != "" && suffix[0] == '-'
    ensures Dashed(name) && name[|name| - 1] == suffix[|suffix| - 1]
  {
    var part := name[|name| - |suffix|..|name| - |suffix| + |suffix|];
    assert part[0] == name[|name| - |suffix|] && part[|suffix| - 1] == name[|name| - 1];
  }

  lemma NamesAreFine(blocks: map<Name, Lines>, host: Host, containers: set<string>, connectTimeout: string, target: string)
    requires Describes(blocks, ServerSpecs(host, containers, connectTimeout, target))
    ensures !HasStaleDocker(blocks) && !HasForeignServer(blocks, host.hostId)
  {
    hide Describes, Dashed, PlaywrightSpec, RequestsSpec, StartsWith, EndsWith;
    HostNames(host);
    if name :| name in blocks && EndsWith(name, "-docker") {
      SuffixIsDashed(name, "-docker");
      DashedIsHosts(blocks, host, containers, connectTimeout, target, name);
    }
    if name :| name in blocks && (EndsWith(name, "-playwright") || EndsWith(name, "-requests")) && !StartsWith(name, host.hostId + "-") {
      SuffixIsDashed(name, if EndsWith(name, "-playwright") then "-playwright" else "-requests");
      DashedIsHosts(blocks, host, containers, connectTimeout, target, name);
    }
  }

  lemma SharedAreFine(blocks: map<Name, Lines>, host: Host, containers: set<string>, connectTimeout: string, target: string)
    requires Describes(blocks, ServerSpecs(host, containers, connectTimeout, target))
    ensures !LacksShared(blocks) && !HasWrongShared(blocks, target)
  {
    hide Describes, UsesSharedSshCommand;
    forall k | 0 <= k < |SHARED|
      ensures SHARED[k].0 in blocks && UsesSharedSshCommand(blocks[SHARED[k].0], target, SHARED[k].1)
    {
      SharedIsFine(blocks, host, containers, connectTimeout, target, k);
    }
  }

  lemma LocalsAreFine(blocks: map<Name, Lines>, host: Host, containers: set<string>, connectTimeout: string, target: string)
    requires Describes(blocks, ServerSpecs(host, containers, connectTimeout, target))
    ensures "docker" in blocks <==> "mcp-docker" in containers
    ensures "docker" in blocks ==> UsesLocalDockerCommand(blocks["docker"], DOCKER_ARGS)
    ensures var p := host.hostId + "-playwright";
      (p in blocks <==> RendersOptional(host, containers, "mcp-playwright")) && !OptionalNotDocker(blocks, p, PLAYWRIGHT_ARGS)
    ensures var r := host.hostId + "-requests";
      (r in blocks <==> RendersOptional(host, containers, "mcp-requests")) && !OptionalNotDocker(blocks, r, REQUESTS_ARGS)
  {
    hide Describes, UsesLocalDockerCommand, RendersOptional, LocalSpecs;
    LocalNames(host, containers);
    if "mcp-docker" in containers {
      LocalIsFine(blocks, host, containers, connectTimeout, target, DockerSpec);
    }
    if RendersOptional(host, containers, "mcp-playwright") {
      LocalIsFine(blocks, host, containers, connectTimeout, target, PlaywrightSpec(host));
    }
    if RendersOptional(host, containers, "mcp-requests") {
      LocalIsFine(blocks, host, containers, connectTimeout, target, RequestsSpec(host));
    }
    forall name | name in blocks
      ensures name == "docker" ==> "mcp-docker" in containers
      ensures name == PlaywrightSpec(host).name ==> RendersOptional(host, containers, "mcp-playwright")
      ensures name == RequestsSpec(host).name ==> RendersOptional(host, containers, "mcp-requests")
    {
      DashedIsHosts(blocks, host, containers, connectTimeout, target, name);
    }
  }

  /** A generated text passes the validator exactly when the containers run and nothing
      that was written in contains a reserved marker. */
  lemma GeneratedPassesExactly(lines: Lines, host: Host, containers: set<string>, connectTimeout: string, target: string)
    requires host.hostId != ""
    ensures var built := BuildHybridCodexMcpConfigText(lines, Workspace, host, containers, connectTimeout, target);
      built.Some? && (ValidateHybridWorkerMcpConfigText(built.value, Workspace, host, target) == None
                      <==> ContainersRun(host, containers) && NoReservedMarker(host, containers, connectTimeout, target))
  {
    hide Describes, UsesLocalDockerCommand, LocalSpecs, SharedSpecs, ServerSpecs, NoReservedMarker, HasReserved, LacksShared,
         HasWrongShared, HasStaleDocker, HasForeignServer, TablesOf, Parsed, Replaced, Render, Distinct, OptionalNotDocker;
    var specs := ServerSpecs(host, containers, connectTimeout, target);
    SpecsAreDistinct(host, containers, connectTimeout, target);
    SharedAt(host, containers, connectTimeout, target, 0);
    BuiltDescribes(lines, specs);
    var tables := TablesOf(specs);
    var blocks := Parsed(Replaced(lines, Render(tables, |tables|)));
    ReservedIff(blocks, host, containers, connectTimeout, target);
    SharedAreFine(blocks, host, containers, connectTimeout, target);
    LocalsAreFine(blocks, host, containers, connectTimeout, target);
    NamesAreFine(blocks, host, containers, connectTimeout, target);
  }

  /** With the preset for no servers, what is generated always passes. */
  lemma NoServersPass(lines: Lines, host: Host, containers: set<string>, connectTimeout: string, target: string)
    ensures var built := BuildHybridCodexMcpConfigText(lines, NoServers, host, containers, connectTimeout, target);
      built.Some? && ValidateHybridWorkerMcpConfigText(built.value, NoServers, host, target) == None
  {
    hide Parsed, Replaced;
    RemovedServersAreNotRead(lines);
  }

  // ---------------------------------------------------------------------
  // Which configurations pass
  // ---------------------------------------------------------------------

  /** The block runs the program, and lists these arguments in a row. */
  predicate Runs(block: Lines, program: string, wanted: seq<string>) {
    && (exists k :: 0 <= k < |block| && block[k].kind == Text(Command(program)))
    && (exists k :: 0 <= k < |block| && block[k].kind.Text? && block[k].kind.setting.Args? && InARow(block[k].kind.setting.values, wanted))
  }

  predicate InARow(values: seq<string>, wanted: seq<string>) {
    exists at: nat :: at <= |values| && InARowAt(values, wanted, at)
  }

  predicate InARowAt(values: seq<string>, wanted: seq<string>, at: nat) {
    at + |wanted| <= |values| && forall i :: 0 <= i < |wanted| ==> values[at + i] == wanted[i]
  }

  lemma InARowIsListed(values: seq<string>, wanted: seq<string>, at: nat)
    ensures InARowAt(values, wanted, at) <==> Lists(values, wanted, at)
  {
    if Lists(values, wanted, at) {
      forall i | 0 <= i < |wanted| ensures values[at + i] == wanted[i] {
        assert values[at..at + |wanted|][i] == values[at + i];
      }
    }
  }

  lemma RunsAs(block: Lines, program: string, wanted: seq<string>)
    ensures HasCommand(block, program) && HasArgs(block, wanted) <==> Runs(block, program, wanted)
  {
    hide Lists, InARowAt;
    forall k | 0 <= k < |block| && block[k].kind.Text? && block[k].kind.setting.Args?
      ensures LineLists(block[k], wanted) <==> InARow(block[k].kind.setting.values, wanted)
    {
      var values := block[k].kind.setting.values;
      forall at: nat ensures InARowAt(values, wanted, at) <==> Lists(values, wanted, at) {
        InARowIsListed(values, wanted, at);
      }
    }
    if HasArgs(block, wanted) {
      var k :| 0 <= k < |block| && LineLists(block[k], wanted);
      assert InARow(block[k].kind.setting.values, wanted);
    }
    if Runs(block, program, wanted) {
      var k :| 0 <= k < |block| && block[k].kind.Text? && block[k].kind.setting.Args? && InARow(block[k].kind.setting.values, wanted);
      assert LineLists(block[k], wanted);
    }
  }

  /** An optional server that runs on the host: there exactly if declared, where the host
      declares anything, and run by the local docker if there. */
  predicate OptionalIsRight(blocks: map<Name, Lines>, host: Host, capability: string, args: seq<string>, name: Name) {
    && (host.capabilities.Some? ==> (name in blocks <==> capability in host.capabilities.value))
    && (name in blocks ==> Runs(blocks[name], "docker", args))
  }

  /** The two tests of a name are those for a suffix and a prefix. */
  lemma EndsWithIs(s: string, part: string)
    ensures EndsWith(s, part) <==> |s| >= |part| && s[|s| - |part|..] == part
  {
    if |s| >= |part| {
      assert s[|s| - |part|..|s|] == s[|s| - |part|..];
    }
  }

  lemma StartsWithIs(s: string, part: string)
    ensures StartsWith(s, part) <==> part <= s
  {
    if |s| >= |part| {
      assert s[0..0 + |part|] == s[..|part|];
    }
  }

  /** What is written on a line. */
  function Written(line: Line): seq<string> {
    match line.kind
    case McpServer(name) => [name]
    case Text(Command(program)) => [program]
    case Text(Args(values)) => values
    case Text(Other(text)) => [text]
    case _ => []
  }

  /** The marker begins at the i-th character. */
  predicate MarkerAt(s: string, marker: string, i: nat) {
    i <= |s| && marker <= s[i..]
  }

  lemma MarkedString(line: Line) returns (j: nat)
    requires LineMarked(line)
    ensures j < |Written(line)| && Marked(Written(line)[j])
  {
    j := 0;
    if line.kind.Text? && line.kind.setting.Args? {
      j :| j < |Written(line)| && Marked(Written(line)[j]);
    }
  }

  lemma MarkerAtIs(s: string, marker: string, i: nat)
    ensures MarkerAt(s, marker, i) <==> MatchesAt(s, marker, i)
  {
    if i + |marker| <= |s| {
      assert s[i..][..|marker|] == s[i..i + |marker|];
    }
  }

  /** A line is marked exactly when a reserved marker stands somewhere in what is written on it. */
  lemma MarkedLinesSayAMarker(line: Line)
    ensures LineMarked(line) <==>
      exists j: nat, i: nat, m: nat :: j < |Written(line)| && m < |MARKERS| && MarkerAt(Written(line)[j], MARKERS[m], i)
  {
    if LineMarked(line) {
      var j: nat := MarkedString(line);
      var m: nat :| m < |MARKERS| && Includes(Written(line)[j], MARKERS[m]);
      var i: nat :| i <= |Written(line)[j]| && MatchesAt(Written(line)[j], MARKERS[m], i);
      MarkerAtIs(Written(line)[j], MARKERS[m], i);
    }
    forall j: nat, i: nat, m: nat | j < |Written(line)| && m < |MARKERS| && MarkerAt(Written(line)[j], MARKERS[m], i)
      ensures LineMarked(line)
    {
      MarkerAtIs(Written(line)[j], MARKERS[m], i);
      assert Includes(Written(line)[j], MARKERS[m]);
      assert Marked(Written(line)[j]);
    }
  }

  /** Any blocks pass exactly when none is reserved, all shared servers are there and reach
      the target over ssh, the docker server is there and local, no name ends as that of
      another docker server or of an optional server of another host, and the optional
      servers of this host are right. */
  lemma WorkspacePassesExactly(blocks: map<Name, Lines>, host: Host, target: string)
    ensures WorkspaceFault(blocks, host, target).None? <==>
      && (forall name :: name in blocks ==> name != "pitlane" && forall k :: 0 <= k < |blocks[name]| ==> !LineMarked(blocks[name][k]))
      && (forall k :: 0 <= k < |SHARED| ==>
            SHARED[k].0 in blocks && Runs(blocks[SHARED[k].0], "ssh", ["-T", target]) && Runs(blocks[SHARED[k].0], "ssh", SHARED[k].1))
      && "docker" in blocks && Runs(blocks["docker"], "docker", DOCKER_ARGS)
      && (forall name :: name in blocks ==> !EndsWith(name, "-docker"))
      && (forall name :: name in blocks && (EndsWith(name, "-playwright") || EndsWith(name, "-requests")) ==> StartsWith(name, host.hostId + "-"))
      && OptionalIsRight(blocks, host, "mcp-playwright", PLAYWRIGHT_ARGS, host.hostId + "-playwright")
      && OptionalIsRight(blocks, host, "mcp-requests", REQUESTS_ARGS, host.hostId + "-requests")
  {
    hide HasCommand, HasArgs, Runs, LineMarked, EndsWith, StartsWith;
    forall name | name in blocks
      ensures UsesLocalDockerCommand(blocks[name], PLAYWRIGHT_ARGS) <==> Runs(blocks[name], "docker", PLAYWRIGHT_ARGS)
      ensures UsesLocalDockerCommand(blocks[name], REQUESTS_ARGS) <==> Runs(blocks[name], "docker", REQUESTS_ARGS)
      ensures UsesLocalDockerCommand(blocks[name], DOCKER_ARGS) <==> Runs(blocks[name], "docker", DOCKER_ARGS)
    {
      RunsAs(blocks[name], "docker", PLAYWRIGHT_ARGS);
      RunsAs(blocks[name], "docker", REQUESTS_ARGS);
      RunsAs(blocks[name], "docker", DOCKER_ARGS);
    }
    forall k | 0 <= k < |SHARED| && SHARED[k].0 in blocks
      ensures UsesSharedSshCommand(blocks[SHARED[k].0], target, SHARED[k].1)
         <==> Runs(blocks[SHARED[k].0], "ssh", ["-T", target]) && Runs(blocks[SHARED[k].0], "ssh", SHARED[k].1)
    {
      RunsAs(blocks[SHARED[k].0], "ssh", ["-T", target]);
      RunsAs(blocks[SHARED[k].0], "ssh", SHARED[k].1);
    }
  }
}
