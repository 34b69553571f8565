/**
 * The Docker port mapping env file: its canonical printer and its strict parser
 * (internal/hostruntime/docker_port_policy.go).
 */
module PortEnv {
  import opened Basics
  import opened Text

  datatype Adapter = Adapter(publishedVariable: string, containerVariable: string)

  datatype Mapping = Mapping(published: int, container: int, revision: Int64)

  const MAX_ENV_BYTES := 65536
  const REVISION_PREFIX := "AUTOSTREAM_CONFIG_REVISION="

  predicate ValidPort(port: int) {
    1024 <= port <= 65535
  }

  predicate IsEnvNameChar(c: char) {
    'A' <= c <= 'Z' || IsDigit(c) || c == '_'
  }

  /** `^[A-Z][A-Z0-9_]*$` */
  predicate IsEnvName(name: string) {
    name != "" && 'A' <= name[0] <= 'Z' && forall i :: 0 <= i < |name| ==> IsEnvNameChar(name[i])
  }

  predicate Printable(adapter: Adapter, m: Mapping) {
    && IsEnvName(adapter.publishedVariable)
    && IsEnvName(adapter.containerVariable)
    && ValidPort(m.published)
    && ValidPort(m.container)
    && m.revision >= 1
  }

  function AssignmentLine(variable: string, port: nat): string {
    variable + "=" + PrintNat(port)
  }

  function RevisionLine(revision: nat): string {
    REVISION_PREFIX + PrintNat(revision)
  }

  /** `dockerPortEnvBytes` */
  function Print(adapter: Adapter, m: Mapping): Option<string> {
    if !Printable(adapter, m) then None
    else Some(ThreeLines(AssignmentLine(adapter.publishedVariable, m.published),
                         AssignmentLine(adapter.containerVariable, m.container),
                         RevisionLine(m.revision), '\n'))
  }

  /** `strings.CutPrefix`, and no leading zero or empty value. */
  function CutCanonicalPrefix(line: string, prefix: string): Option<string> {
    if HasPrefix(line, prefix) && |line| > |prefix| && line[|prefix|] != '0'
    then Some(line[|prefix|..])
    else None
  }

  /** `parseCanonicalDockerPortAssignment` */
  function ParseAssignment(line: string, variable: string): Option<int> {
    match CutCanonicalPrefix(line, variable + "=")
    case None => None
    case Some(value) =>
      match ParseInt64(value)
      case Some(port) => if ValidPort(port) && PrintNat(port) == value then Some(port) else None
      case None => None
  }

  function ParseRevision(line: string): Option<Int64> {
    match CutCanonicalPrefix(line, REVISION_PREFIX)
    case None => None
    case Some(value) =>
      match ParseInt64(value)
      case Some(revision) => if revision >= 1 && PrintNat(revision) == value then Some(revision) else None
      case None => None
  }

  /** `parseDockerPortEnv` */
  function Parse(adapter: Adapter, body: string): Option<Mapping> {
    if body == "" || |body| > MAX_ENV_BYTES then None
    else
      var lines := Split(body, '\n');
      if |lines| != 4 || lines[3] != "" then None
      else
        match (ParseAssignment(lines[0], adapter.publishedVariable),
               ParseAssignment(lines[1], adapter.containerVariable),
               ParseRevision(lines[2]))
        case (Some(published), Some(container), Some(revision)) =>
          var m := Mapping(published, container, revision);
          if Print(adapter, m) == Some(body) then Some(m) else None
        case _ => None
  }

  lemma AssignmentRoundTrip(variable: string, port: int)
    requires IsEnvName(variable) && ValidPort(port)
    ensures ParseAssignment(AssignmentLine(variable, port), variable) == Some(port)
    ensures '\n' !in AssignmentLine(variable, port)
  {
    var line := AssignmentLine(variable, port);
    assert variable + "=" <= line;
    assert line[|variable + "="|..] == PrintNat(port);
    ParsePrintedInt64(port);
  }

  lemma RevisionRoundTrip(revision: Int64)
    requires revision >= 1
    ensures ParseRevision(RevisionLine(revision)) == Some(revision)
    ensures '\n' !in RevisionLine(revision)
  {
    var line := RevisionLine(revision);
    assert REVISION_PREFIX <= line;
    assert line[|REVISION_PREFIX|..] == PrintNat(revision);
    ParsePrintedInt64(revision);
  }

  lemma PrintedLines(adapter: Adapter, m: Mapping)
    requires Printable(adapter, m)
    ensures Split(Print(adapter, m).value, '\n') ==
            [AssignmentLine(adapter.publishedVariable, m.published),
             AssignmentLine(adapter.containerVariable, m.container),
             RevisionLine(m.revision),
             ""]
  {
    AssignmentRoundTrip(adapter.publishedVariable, m.published);
    AssignmentRoundTrip(adapter.containerVariable, m.container);
    RevisionRoundTrip(m.revision);
    SplitThreeLines(AssignmentLine(adapter.publishedVariable, m.published),
                    AssignmentLine(adapter.containerVariable, m.container), RevisionLine(m.revision), '\n');
  }

  /**
   * The parser and the printer are exact inverses: a body parses to `m` if and only
   * if it is the printing of `m` and fits the size limit. In particular every
   * printing parses back, and nothing but a canonical printing is accepted.
   */
  lemma ParseIsExactInverse(adapter: Adapter, body: string, m: Mapping)
    ensures Parse(adapter, body) == Some(m) <==>
            Print(adapter, m) == Some(body) && |body| <= MAX_ENV_BYTES
  {
    if Print(adapter, m) == Some(body) && |body| <= MAX_ENV_BYTES {
      PrintedLines(adapter, m);
      AssignmentRoundTrip(adapter.publishedVariable, m.published);
      AssignmentRoundTrip(adapter.containerVariable, m.container);
      RevisionRoundTrip(m.revision);
    }
  }

  datatype ServiceType = Worker | EncoderRecorder | DiscordBot | Observability | OtherService(name: string)

  /** `dockerPortAdapterFor`: the fixed variables of each supported service type. */
  function AdapterFor(serviceType: ServiceType): (r: Option<Adapter>)
    ensures r.Some? <==> !serviceType.OtherService?
  {
    match serviceType
    case Worker => Some(Adapter("AUTOSTREAM_WORKER_PORT", "AUTOSTREAM_WORKER_CONTAINER_PORT"))
    case EncoderRecorder =>
      Some(Adapter("AUTOSTREAM_ENCODER_RECORDER_PORT", "AUTOSTREAM_ENCODER_RECORDER_CONTAINER_PORT"))
    case DiscordBot => Some(Adapter("AUTOSTREAM_DISCORD_BOT_PORT", "AUTOSTREAM_DISCORD_BOT_CONTAINER_PORT"))
    case Observability => Some(Adapter("AUTOSTREAM_OBSERVABILITY_PORT", "AUTOSTREAM_OBSERVABILITY_CONTAINER_PORT"))
    case OtherService(_) => None
  }

  /** Two mappings printed by one adapter to the same bytes are the same mapping. */
  lemma PrintIsInjective(adapter: Adapter, m: Mapping, n: Mapping)
    requires Print(adapter, m).Some? && Print(adapter, m) == Print(adapter, n)
    ensures m == n
  {
    PrintedLines(adapter, m);
    PrintedLines(adapter, n);
    AssignmentRoundTrip(adapter.publishedVariable, m.published);
    AssignmentRoundTrip(adapter.containerVariable, m.container);
    RevisionRoundTrip(m.revision);
    AssignmentRoundTrip(adapter.publishedVariable, n.published);
    AssignmentRoundTrip(adapter.containerVariable, n.container);
    RevisionRoundTrip(n.revision);
  }
}
