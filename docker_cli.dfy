/**
 * The Docker Desktop extension's probe engine: classifying each container as
 * Unsupported / NotInstalled / Running from two read-only `docker exec`
 * checks, and deploying the probe by register, download, Base64 encode, one
 * materialising exec and one detached launch exec.
 *
 * The exec channel and the backend are collaborators: what they answer is held
 * in a `Collaborators` value, and every call the engine makes is appended to
 * the `calls` trace of the `DockerCli` object.
 */
module DockerCli {
  import opened Wrappers
  import Base64
  import DetectRequests
  import opened Sequences

  datatype ProbeStatus = Unsupported | NotInstalled | Running

  /** Options of one `docker exec`: detached or not, and environment entries `KEY=VALUE`. */
  datatype ExecOptions = ExecOptions(detach: bool, env: seq<string>)

  /** One `docker exec` call with its argument list. */
  datatype Exec = Exec(args: seq<string>, options: ExecOptions)

  /** `exec <container> /bin/sh -c <script>`. */
  function ShellExec(containerId: string, script: string, options: ExecOptions): Exec {
    Exec([containerId, "/bin/sh", "-c", script], options)
  }

  const Attached := ExecOptions(false, [])

  const CurlScript := "\"curl --version\""
  const PsScript := "\"ps a --deselect | grep [n]octurnal\""
  const LaunchScript := "\"/tmp/nocturnal &\""
  const TokenVariable := "PRELUDE_TOKEN"
  const ProbeName := "nocturnal"
  const ProbePlatform := "linux-x86_64"

  /** Writes the decoded payload to /tmp/nocturnal and makes it executable, in one shell command. */
  function MaterialiseScript(payload: string): string {
    EchoQuoted + payload + "'" + DecodeToProbe
  }

  const EchoQuoted := "\"echo '"
  const DecodeToProbe := " | base64 -d > /tmp/nocturnal && chmod +x /tmp/nocturnal\""

  function CurlExec(id: string): Exec { ShellExec(id, CurlScript, Attached) }
  function PsExec(id: string): Exec { ShellExec(id, PsScript, Attached) }
  function MaterialiseExec(id: string, payload: string): Exec { ShellExec(id, MaterialiseScript(payload), Attached) }
  function LaunchExec(id: string, token: string): Exec {
    ShellExec(id, LaunchScript, ExecOptions(true, [TokenVariable + "=" + token]))
  }

  /** A call the engine makes on one of its collaborators. */
  datatype Call =
    | ExecCall(exec: Exec)
    | RegisterCall(params: DetectRequests.RegisterEndpointParams)
    | DownloadCall(name: string, dos: string)

  /**
   * What the collaborators answer: whether an exec resolves (false: it
   * throws), the token a registration returns, the text a download returns
   * (None: the call throws).
   */
  datatype Collaborators = Collaborators(
    docker: Exec -> bool,
    register: DetectRequests.RegisterEndpointParams -> Option<string>,
    download: (string, string) -> Option<string>)

  /** `#checkCurl`: a resolving `curl --version` means NotInstalled, a throwing one Unsupported. */
  function CurlStatus(resolved: bool): (s: ProbeStatus)
    ensures s != Running
    ensures s == NotInstalled <==> resolved
  {
    if resolved then NotInstalled else Unsupported
  }

  /** `#checkRunningProbe`: a resolving process listing means Running, a throwing one NotInstalled. */
  function RunningStatus(resolved: bool): (s: ProbeStatus)
    ensures s != Unsupported
    ensures s == Running <==> resolved
  {
    if resolved then Running else NotInstalled
  }

  /** The status one container ends with in `checkDependencies`, and the execs its check issues. */
  function Check(docker: Exec -> bool, id: string): (r: (ProbeStatus, seq<Exec>))
    ensures r.0 == Unsupported <==> !docker(CurlExec(id))
    ensures r.0 == Running <==> docker(CurlExec(id)) && docker(PsExec(id))
    ensures r.0 == NotInstalled <==> docker(CurlExec(id)) && !docker(PsExec(id))
    ensures |r.1| >= 1 && r.1[0] == CurlExec(id)
    ensures PsExec(id) in r.1 <==> docker(CurlExec(id))
    ensures |r.1| <= 2
  {
    var first := CurlStatus(docker(CurlExec(id)));
    if first == Unsupported then (first, [CurlExec(id)])
    else (RunningStatus(docker(PsExec(id))), [CurlExec(id), PsExec(id)])
  }

  /** The calls a scan of containers with these ids makes, container after container. */
  function ScanCalls(docker: Exec -> bool, ids: seq<string>): seq<Call>
    decreases |ids|
  {
    if |ids| == 0 then []
    else ScanCalls(docker, ids[..|ids| - 1]) + ExecCalls(Check(docker, ids[|ids| - 1]).1)
  }

  /** Scanning one more container appends that container's checks. */
  lemma ScanStep(docker: Exec -> bool, containers: seq<Container>, i: nat)
    requires i < |containers|
    ensures ScanCalls(docker, Ids(containers[..i + 1]))
            == ScanCalls(docker, Ids(containers[..i])) + ExecCalls(Check(docker, containers[i].Id).1)
  {
    assert Ids(containers[..i + 1])[..i] == Ids(containers[..i]);
  }

  function ExecCalls(execs: seq<Exec>): (calls: seq<Call>)
    ensures |calls| == |execs|
    ensures forall i :: 0 <= i < |execs| ==> calls[i] == ExecCall(execs[i])
  {
    seq(|execs|, i requires 0 <= i < |execs| => ExecCall(execs[i]))
  }

  /** Number of ids whose `curl --version` resolves. */
  function Supported(docker: Exec -> bool, ids: seq<string>): nat
    decreases |ids|
  {
    if |ids| == 0 then 0
    else Supported(docker, ids[..|ids| - 1]) + (if docker(CurlExec(ids[|ids| - 1])) then 1 else 0)
  }

  /**
   * A scan issues one curl check per container and one process check per
   * container whose curl check resolved, and nothing else.
   */
  lemma {:induction false} ScanCallCount(docker: Exec -> bool, ids: seq<string>)
    ensures |ScanCalls(docker, ids)| == |ids| + Supported(docker, ids)
    ensures forall c :: c in ScanCalls(docker, ids) ==>
      exists i :: 0 <= i < |ids| && (c == ExecCall(CurlExec(ids[i])) || c == ExecCall(PsExec(ids[i])))
    decreases |ids|
  {
    if |ids| > 0 {
      var last := ids[|ids| - 1];
      ScanCallCount(docker, ids[..|ids| - 1]);
      forall c | c in ScanCalls(docker, ids)
        ensures exists i :: 0 <= i < |ids| && (c == ExecCall(CurlExec(ids[i])) || c == ExecCall(PsExec(ids[i])))
      {
        if c in ScanCalls(docker, ids[..|ids| - 1]) {
          var i :| 0 <= i < |ids| - 1 && (c == ExecCall(CurlExec(ids[..|ids| - 1][i])) || c == ExecCall(PsExec(ids[..|ids| - 1][i])));
          assert ids[..|ids| - 1][i] == ids[i];
        } else {
          assert c in ExecCalls(Check(docker, last).1);
          assert c == ExecCall(CurlExec(last)) || c == ExecCall(PsExec(last));
        }
      }
    }
  }

  function Ids(containers: seq<Container>): (ids: seq<string>)
    ensures |ids| == |containers|
    ensures forall i :: 0 <= i < |containers| ==> ids[i] == containers[i].Id
  {
    seq(|containers|, i requires 0 <= i < |containers| => containers[i].Id)
  }

  /** The parameters `#registerEndpoint` sends: the Docker host's hostname, the container id as serial. */
  function RegisterParams(hostname: string, containerId: string): DetectRequests.RegisterEndpointParams {
    DetectRequests.RegisterEndpointParams(hostname, containerId, None, None, None)
  }

  /** `EncodingFailed` carries the position that the model adds to `btoa`'s error. */
  datatype DeployError =
    | RegisterFailed | DownloadFailed | EncodingFailed(position: nat) | MaterialiseFailed | LaunchFailed

  /** What `deployProbe` returns, and the calls it makes, in order. */
  datatype Deployment = Deployment(result: Result<ProbeStatus, DeployError>, calls: seq<Call>)

  function DeploySpec(hostname: string, w: Collaborators, id: string): Deployment {
    var register := RegisterCall(RegisterParams(hostname, id));
    var download := DownloadCall(ProbeName, ProbePlatform);
    match w.register(RegisterParams(hostname, id))
    case None => Deployment(Failure(RegisterFailed), [register])
    case Some(token) =>
      match w.download(ProbeName, ProbePlatform)
      case None => Deployment(Failure(DownloadFailed), [register, download])
      case Some(code) =>
        match Base64.Btoa(code)
        case Failure(e) => Deployment(Failure(EncodingFailed(e.position)), [register, download])
        case Success(payload) =>
          var materialise := MaterialiseExec(id, payload);
          if !w.docker(materialise) then
            Deployment(Failure(MaterialiseFailed), [register, download, ExecCall(materialise)])
          else
            var launch := LaunchExec(id, token);
            Deployment(if w.docker(launch) then Success(Running) else Failure(LaunchFailed),
                       [register, download, ExecCall(materialise), ExecCall(launch)])
  }

  /**
   * Deployment registers first, downloads second, then issues at most two
   * execs, materialise before launch; a failed registration or download
   * issues no exec; success means exactly two execs and the status Running.
   */
  lemma DeployOrder(hostname: string, w: Collaborators, id: string)
    ensures var d := DeploySpec(hostname, w, id);
      && 1 <= |d.calls| <= 4
      && d.calls[0] == RegisterCall(RegisterParams(hostname, id))
      && (|d.calls| >= 2 ==> d.calls[1] == DownloadCall(ProbeName, ProbePlatform))
      && (|d.calls| >= 3 ==> d.calls[2].ExecCall? && d.calls[2].exec.args[3] != LaunchScript
                              && !d.calls[2].exec.options.detach)
      && (|d.calls| == 4 ==> d.calls[3].ExecCall? && d.calls[3].exec.args[3] == LaunchScript
                              && d.calls[3].exec.options.detach)
      && (forall i :: 0 <= i < |d.calls| && d.calls[i].ExecCall? ==> i >= 2)
      && (w.register(RegisterParams(hostname, id)).None? ==> d.calls == [RegisterCall(RegisterParams(hostname, id))])
      && (w.download(ProbeName, ProbePlatform).None? ==> |d.calls| <= 2)
      && (d.result.Success? ==> d.result.value == Running && |d.calls| == 4)
  {
    var d := DeploySpec(hostname, w, id);
    if |d.calls| >= 3 {
      assert MaterialiseScript(Base64.Btoa(w.download(ProbeName, ProbePlatform).value).value)[1] == 'e';
    }
  }

  /** The token appears only in the environment of the launch exec, as `PRELUDE_TOKEN=<token>`. */
  lemma TokenOnlyInLaunchEnv(hostname: string, w: Collaborators, id: string)
    ensures var d := DeploySpec(hostname, w, id);
      forall i :: 0 <= i < |d.calls| && d.calls[i].ExecCall? && d.calls[i].exec.options.env != [] ==>
        i == 3 && d.calls[i].exec.options.env == [TokenVariable + "=" + w.register(RegisterParams(hostname, id)).value]
  {
  }

  /** The call with every exec's environment removed. */
  function WithoutEnv(c: Call): Call {
    if c.ExecCall? then ExecCall(c.exec.(options := c.exec.options.(env := []))) else c
  }

  function CallsWithoutEnv(calls: seq<Call>): (r: seq<Call>)
    ensures |r| == |calls|
  {
    seq(|calls|, i requires 0 <= i < |calls| => WithoutEnv(calls[i]))
  }

  /**
   * Nothing but the launch environment depends on the token: two backends
   * that hand out different tokens (and agree on everything else) lead to the
   * same calls once environments are removed.
   */
  lemma {:induction false} TokenConfined(hostname: string, w1: Collaborators, w2: Collaborators, id: string)
    requires w1.docker == w2.docker && w1.download == w2.download
    requires w1.register(RegisterParams(hostname, id)).Some? == w2.register(RegisterParams(hostname, id)).Some?
    ensures CallsWithoutEnv(DeploySpec(hostname, w1, id).calls) == CallsWithoutEnv(DeploySpec(hostname, w2, id).calls)
  {
    var d1, d2 := DeploySpec(hostname, w1, id), DeploySpec(hostname, w2, id);
    assert |d1.calls| == |d2.calls|;
    forall i | 0 <= i < |d1.calls| ensures WithoutEnv(d1.calls[i]) == WithoutEnv(d2.calls[i]) {
    }
  }

  /** The text between the first single quote of `script` and the next one. */
  function QuotedLiteral(script: string): Option<string> {
    match IndexOf(script, '\'', 0)
    case None => None
    case Some(open) =>
      match IndexOf(script, '\'', open + 1)
      case None => None
      case Some(close) => Some(script[open + 1..close])
  }

  /** A payload without single quotes is exactly the shell literal the materialise script quotes. */
  lemma MaterialiseQuotes(payload: string)
    requires '\'' !in payload
    ensures QuotedLiteral(MaterialiseScript(payload)) == Some(payload)
  {
    var s := MaterialiseScript(payload);
    var suffix := "'" + DecodeToProbe;
    assert s == EchoQuoted + payload + suffix;
    assert s[..6] == "\"echo ";
    IndexOfAt(s, '\'', 0, 6);
    assert s[7..7 + |payload|] == payload;
    assert s[7 + |payload|] == suffix[0];
    IndexOfAt(s, '\'', 7, 7 + |payload|);
  }

  /**
   * On a deployment that reaches the materialise exec, the script quotes a
   * Base64 literal that is not broken by a quote and that `base64 -d` turns
   * into the downloaded probe's bytes.
   */
  lemma MaterialisePayload(hostname: string, w: Collaborators, id: string)
    requires |DeploySpec(hostname, w, id).calls| >= 3
    ensures var script := DeploySpec(hostname, w, id).calls[2].exec.args[3];
      var code := w.download(ProbeName, ProbePlatform).value;
      && (forall i :: 0 <= i < |code| ==> code[i] as int < 256)
      && QuotedLiteral(script).Some?
      && Base64.Decode(QuotedLiteral(script).value) == Some(Base64.Latin1(code))
  {
    var code := w.download(ProbeName, ProbePlatform).value;
    var payload := Base64.Btoa(code).value;
    MaterialiseQuotes(payload);
  }

  /** Registration sends the id `<hostname>:<container id>::-1`. */
  lemma RegisterSendsHostAndContainer(hostname: string, w: Collaborators, id: string)
    ensures var c := DeploySpec(hostname, w, id).calls[0];
      c.RegisterCall? && DetectRequests.EndpointId(c.params) == hostname + ":" + id + "::-1"
  {
    DetectRequests.DefaultEndpointId(hostname, id, None);
  }

  /** A Docker container as the extension lists it; the scan updates its status in place. */
  class Container {
    const Id: string
    var ProbeStatus: ProbeStatus

    constructor (id: string, status: ProbeStatus)
      ensures Id == id && ProbeStatus == status
    {
      Id := id;
      ProbeStatus := status;
    }
  }

  class DockerCli {
    /** `ddClient.host.hostname`. */
    const hostname: string
    const collaborators: Collaborators
    /** Every collaborator call made so far, oldest first. */
    var calls: seq<Call>

    constructor (hostname: string, collaborators: Collaborators)
      ensures this.hostname == hostname && this.collaborators == collaborators && calls == []
    {
      this.hostname := hostname;
      this.collaborators := collaborators;
      calls := [];
    }

    method Exec(e: Exec) returns (resolved: bool)
      modifies this
      ensures calls == old(calls) + [ExecCall(e)]
      ensures resolved == collaborators.docker(e)
    {
      calls := calls + [ExecCall(e)];
      resolved := collaborators.docker(e);
    }

    method CheckCurl(id: string) returns (s: ProbeStatus)
      modifies this
      ensures calls == old(calls) + [ExecCall(CurlExec(id))]
      ensures s == CurlStatus(collaborators.docker(CurlExec(id)))
    {
      var resolved := Exec(CurlExec(id));
      s := if resolved then NotInstalled else Unsupported;
    }

    method CheckRunningProbe(id: string) returns (s: ProbeStatus)
      modifies this
      ensures calls == old(calls) + [ExecCall(PsExec(id))]
      ensures s == RunningStatus(collaborators.docker(PsExec(id)))
    {
      var resolved := Exec(PsExec(id));
      s := if resolved then Running else NotInstalled;
    }

    /** The per-container step of `checkDependencies`: curl check, then the process check if curl is there. */
    method CheckContainer(container: Container)
      modifies this, container
      ensures container.ProbeStatus == Check(collaborators.docker, container.Id).0
      ensures calls == old(calls) + ExecCalls(Check(collaborators.docker, container.Id).1)
    {
      container.ProbeStatus := CheckCurl(container.Id);
      if container.ProbeStatus != Unsupported {
        container.ProbeStatus := CheckRunningProbe(container.Id);
      }
    }

    /**
     * `checkDependencies`: the same containers come back in the same order,
     * each with the status its own two checks give; the fan-out is run one
     * container after the other.
     */
    method CheckDependencies(containers: seq<Container>) returns (result: seq<Container>)
      modifies this, containers
      ensures result == containers
      ensures forall i :: 0 <= i < |containers| ==>
        containers[i].ProbeStatus == Check(collaborators.docker, containers[i].Id).0
      ensures calls == old(calls) + ScanCalls(collaborators.docker, Ids(containers))
    {
      for i := 0 to |containers|
        invariant forall j :: 0 <= j < i ==>
          containers[j].ProbeStatus == Check(collaborators.docker, containers[j].Id).0
        invariant calls == old(calls) + ScanCalls(collaborators.docker, Ids(containers[..i]))
      {
        ghost var before := calls;
        CheckContainer(containers[i]);
        ScanStep(collaborators.docker, containers, i);
        Associative(old(calls), ScanCalls(collaborators.docker, Ids(containers[..i])),
                    ExecCalls(Check(collaborators.docker, containers[i].Id).1));
      }
      assert containers[..|containers|] == containers;
      result := containers;
    }

    method RegisterEndpoint(containerId: string) returns (token: Option<string>)
      modifies this
      ensures calls == old(calls) + [RegisterCall(RegisterParams(hostname, containerId))]
      ensures token == collaborators.register(RegisterParams(hostname, containerId))
    {
      var params := RegisterParams(hostname, containerId);
      calls := calls + [RegisterCall(params)];
      token := collaborators.register(params);
    }

    method DownloadProbe() returns (code: Option<string>)
      modifies this
      ensures calls == old(calls) + [DownloadCall(ProbeName, ProbePlatform)]
      ensures code == collaborators.download(ProbeName, ProbePlatform)
    {
      calls := calls + [DownloadCall(ProbeName, ProbePlatform)];
      code := collaborators.download(ProbeName, ProbePlatform);
    }

    /** `deployProbe`: the result and the calls are those DeploySpec prescribes. */
    method DeployProbe(containerId: string) returns (r: Result<ProbeStatus, DeployError>)
      modifies this
      ensures r == DeploySpec(hostname, collaborators, containerId).result
      ensures calls == old(calls) + DeploySpec(hostname, collaborators, containerId).calls
    {
      var token := RegisterEndpoint(containerId);
      if token.None? {
        return Failure(RegisterFailed);
      }
      var code := DownloadProbe();
      if code.None? {
        return Failure(DownloadFailed);
      }
      var encoded := Base64.Btoa(code.value);
      if encoded.Failure? {
        return Failure(EncodingFailed(encoded.error.position));
      }
      var materialised := Exec(MaterialiseExec(containerId, encoded.value));
      if !materialised {
        return Failure(MaterialiseFailed);
      }
      var launched := Exec(LaunchExec(containerId, token.value));
      if !launched {
        return Failure(LaunchFailed);
      }
      return Success(Running);
    }
  }
}
