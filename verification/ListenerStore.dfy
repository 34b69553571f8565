/**
 * The listener generation store of one service directory: several processes materialize
 * listener files side by side (docker_node_listener_materialization.go). The store is
 * content-addressed, capacity-bounded and never replaces a file.
 *
 * Each process is a step machine over the shared directory. Any process may crash between
 * any two steps; the operating system then releases its lock and nothing else.
 */
module ListenerStore {
  import opened Basics

  const MAX_GENERATIONS := 256

  /** The digest in a generation's file name, modelled as injective. */
  datatype Name = Sha(content: string)

  type Pid = nat
  type Inode = nat

  /** Where a process stands in `materialize`; `content` is the approved body. */
  datatype Process =
    | Idle
    | Looking(content: string)
    | Waiting(content: string)
    | Locked(content: string)
    | HasRoom(content: string)
    | Writing(content: string, temp: string, inode: Inode)
    | Written(content: string, temp: string, inode: Inode)
    | Linked(content: string, temp: string)
    | Leaving(leftover: Option<string>)

  /** `next` is the first inode number never used. */
  datatype Store = Store(
    published: map<Name, Inode>, temps: map<string, Inode>, bytes: map<Inode, string>, next: Inode,
    lock: Option<Pid>, processes: map<Pid, Process>)

  datatype Action =
    | Begin(content: string)
    | Look
    | Acquire
    | Recheck
    | Create(temp: string)
    | WritePart(length: nat)
    | WriteAll
    | Link
    | Unlink
    | Fail
    | Release
    | Crash

  function ProcessOf(s: Store, pid: Pid): Process {
    if pid in s.processes then s.processes[pid] else Idle
  }

  predicate HoldsLock(p: Process) {
    !p.Idle? && !p.Looking? && !p.Waiting?
  }

  function Go(s: Store, pid: Pid, p: Process): Store {
    s.(processes := s.processes[pid := p])
  }

  function Drop(temps: map<string, Inode>, temp: Option<string>): map<string, Inode> {
    if temp.Some? then temps - {temp.value} else temps
  }

  /** The entries `ReadDir` counts: published generations and everybody's pending files. */
  function Count(s: Store): nat {
    |s.published| + |s.temps|
  }

  function SetBytes(s: Store, inode: Inode, body: string): Store {
    s.(bytes := s.bytes[inode := body])
  }

  /** `O_CREATE|O_EXCL`: a new, empty inode under a pending name. */
  function Allocate(s: Store, temp: string): Store {
    SetBytes(s, s.next, "").(temps := s.temps[temp := s.next], next := s.next + 1)
  }

  /** `Link` without replacing. */
  function Publish(s: Store, content: string, inode: Inode): Store {
    s.(published := s.published[Sha(content) := inode])
  }

  /** A failure inside the locked region still cleans up and releases. */
  function FailStep(s: Store, pid: Pid, p: Process): Store {
    if p.Looking? || p.Waiting? then Go(s, pid, Idle)
    else if p.Locked? || p.HasRoom? then Go(s, pid, Leaving(None))
    else if p.Writing? || p.Written? || p.Linked? then Go(s, pid, Leaving(Some(p.temp)))
    else s
  }

  /** A crash releases the lock and leaves every file as it is. */
  function CrashStep(s: Store, pid: Pid, p: Process): Store {
    Go(s, pid, Idle).(lock := if HoldsLock(p) then None else s.lock)
  }

  /** The steps before the locked region, and into it. */
  function OutsideStep(s: Store, pid: Pid, p: Process, a: Action): Store {
    match p
    case Idle => if a.Begin? then Go(s, pid, Looking(a.content)) else s
    case Looking(content) =>
      if a.Look? then Go(s, pid, if Sha(content) in s.published then Idle else Waiting(content)) else s
    case Waiting(content) =>
      if a.Acquire? && s.lock == None then Go(s, pid, Locked(content)).(lock := Some(pid)) else s
    case _ => s
  }

  /** The steps of the lock holder. */
  function InsideStep(s: Store, pid: Pid, p: Process, a: Action): Store {
    match p
    case Locked(content) =>
      if a.Recheck? then
        Go(s, pid, if Sha(content) in s.published || Count(s) >= MAX_GENERATIONS then Leaving(None)
                   else HasRoom(content))
      else s
    case HasRoom(content) =>
      if !a.Create? then s
      else if a.temp in s.temps then Go(s, pid, Leaving(None))
      else Go(Allocate(s, a.temp), pid, Writing(content, a.temp, s.next))
    case Writing(content, temp, inode) =>
      if a.WritePart? && a.length <= |content| then Go(SetBytes(s, inode, content[..a.length]), pid, p)
      else if a.WriteAll? then Go(SetBytes(s, inode, content), pid, Written(content, temp, inode))
      else s
    case Written(content, temp, inode) =>
      if !a.Link? then s
      else if Sha(content) in s.published then Go(s, pid, Leaving(Some(temp)))
      else Go(Publish(s, content, inode), pid, Linked(content, temp))
    case Linked(_, temp) =>
      if a.Unlink? then Go(s, pid, Leaving(Some(temp))).(temps := s.temps - {temp}) else s
    case Leaving(leftover) =>
      if a.Release? then Go(s, pid, Idle).(temps := Drop(s.temps, leftover), lock := None) else s
    case _ => s
  }

  /** One step of one process; a step that does not apply leaves the store as it is. */
  function Next(s: Store, pid: Pid, a: Action): Store {
    var p := ProcessOf(s, pid);
    if a.Crash? then CrashStep(s, pid, p)
    else if a.Fail? then FailStep(s, pid, p)
    else if HoldsLock(p) then InsideStep(s, pid, p, a)
    else OutsideStep(s, pid, p, a)
  }

  // --- Safety --------------------------------------------------------------------------

  /** A published generation is complete and matches the digest in its name. */
  ghost predicate PublishedComplete(s: Store) {
    forall name :: name in s.published ==>
                     s.published[name] in s.bytes && s.bytes[s.published[name]] == name.content
  }

  ghost predicate Bounded(s: Store) {
    |s.published| <= MAX_GENERATIONS
  }

  /** Everything published stays published, with the same bytes. */
  ghost predicate Preserves(s: Store, t: Store) {
    forall name :: name in s.published && s.published[name] in s.bytes ==>
                     && name in t.published && t.published[name] in t.bytes
                     && t.bytes[t.published[name]] == s.bytes[s.published[name]]
  }

  // --- The inductive invariant ---------------------------------------------------------------

  /** Exactly the lock holder is inside the locked region. */
  ghost predicate Exclusive(s: Store) {
    forall pid: Pid :: HoldsLock(ProcessOf(s, pid)) <==> s.lock == Some(pid)
  }

  ghost predicate Unpublished(s: Store, inode: Inode) {
    forall name :: name in s.published ==> s.published[name] != inode
  }

  /** What the process in the locked region relies on. */
  ghost predicate Working(s: Store, p: Process) {
    match p
    case HasRoom(_) => |s.published| < MAX_GENERATIONS
    case Writing(_, _, inode) => |s.published| < MAX_GENERATIONS && inode < s.next && Unpublished(s, inode)
    case Written(content, _, inode) =>
      && |s.published| < MAX_GENERATIONS && inode < s.next && Unpublished(s, inode)
      && inode in s.bytes && s.bytes[inode] == content
    case _ => true
  }

  /** The part of the invariant about files alone. */
  ghost predicate FilesOk(s: Store) {
    && PublishedComplete(s) && Bounded(s)
    && (forall name :: name in s.published ==> s.published[name] < s.next)
  }

  ghost predicate Inv(s: Store) {
    && FilesOk(s) && Exclusive(s)
    && forall pid: Pid :: Working(s, ProcessOf(s, pid))
  }

  lemma SetBytesIsSafe(s: Store, inode: Inode, body: string)
    requires FilesOk(s) && Unpublished(s, inode)
    ensures FilesOk(SetBytes(s, inode, body)) && Preserves(s, SetBytes(s, inode, body))
  {
  }

  lemma AllocateIsSafe(s: Store, temp: string)
    requires FilesOk(s)
    ensures FilesOk(Allocate(s, temp)) && Preserves(s, Allocate(s, temp)) && Unpublished(Allocate(s, temp), s.next)
  {
  }

  lemma PublishIsSafe(s: Store, content: string, inode: Inode)
    requires FilesOk(s) && Sha(content) !in s.published
    requires |s.published| < MAX_GENERATIONS && inode < s.next && inode in s.bytes && s.bytes[inode] == content
    ensures FilesOk(Publish(s, content, inode)) && Preserves(s, Publish(s, content, inode))
  {
  }

  predicate SameFiles(s: Store, t: Store) {
    t.published == s.published && t.bytes == s.bytes && t.next == s.next
  }

  /** The ways a step of process `p` can change the files. */
  ghost predicate FilesChange(s: Store, p: Process, a: Action, t: Store) {
    || SameFiles(s, t)
    || (p.HasRoom? && a.Create? && SameFiles(Allocate(s, a.temp), t))
    || (p.Writing? && p.inode in t.bytes && SameFiles(SetBytes(s, p.inode, t.bytes[p.inode]), t))
    || (p.Written? && Sha(p.content) !in s.published && SameFiles(Publish(s, p.content, p.inode), t))
  }

  lemma InsideFiles(s: Store, pid: Pid, p: Process, a: Action)
    ensures FilesChange(s, p, a, InsideStep(s, pid, p, a))
  {
  }

  lemma NextFiles(s: Store, pid: Pid, a: Action)
    ensures FilesChange(s, ProcessOf(s, pid), a, Next(s, pid, a))
  {
    var p := ProcessOf(s, pid);
    if a.Crash? {
    } else if a.Fail? {
      assert SameFiles(s, FailStep(s, pid, p));
    } else if HoldsLock(p) {
      InsideFiles(s, pid, p, a);
    } else {
      assert SameFiles(s, OutsideStep(s, pid, p, a));
    }
  }

  /** Publishing is the only step that adds a name; no step changes the bytes of a published inode. */
  lemma NextKeepsFiles(s: Store, pid: Pid, a: Action)
    requires FilesOk(s) && Working(s, ProcessOf(s, pid))
    ensures FilesOk(Next(s, pid, a)) && Preserves(s, Next(s, pid, a))
  {
    var t, p := Next(s, pid, a), ProcessOf(s, pid);
    NextFiles(s, pid, a);
    if p.HasRoom? && a.Create? {
      AllocateIsSafe(s, a.temp);
    } else if p.Writing? && p.inode in t.bytes {
      SetBytesIsSafe(s, p.inode, t.bytes[p.inode]);
    } else if p.Written? && Sha(p.content) !in s.published {
      PublishIsSafe(s, p.content, p.inode);
    }
  }

  /** Only process `pid` moved. */
  ghost predicate MovedOnly(s: Store, pid: Pid, t: Store) {
    forall q: Pid :: q != pid ==> ProcessOf(t, q) == ProcessOf(s, q)
  }

  lemma InsideMovesOne(s: Store, pid: Pid, p: Process, a: Action)
    ensures MovedOnly(s, pid, InsideStep(s, pid, p, a))
  {
  }

  /** A step moves one process and leaves all others where they are. */
  lemma NextMovesOne(s: Store, pid: Pid, a: Action)
    ensures MovedOnly(s, pid, Next(s, pid, a))
  {
    var p := ProcessOf(s, pid);
    if a.Crash? {
    } else if a.Fail? {
      assert MovedOnly(s, pid, FailStep(s, pid, p));
    } else if HoldsLock(p) {
      InsideMovesOne(s, pid, p, a);
    } else {
      assert MovedOnly(s, pid, OutsideStep(s, pid, p, a));
    }
  }

  /** A process outside the locked region touches no file; at most it takes the free lock. */
  lemma NextOutside(s: Store, pid: Pid, a: Action)
    requires !HoldsLock(ProcessOf(s, pid))
    ensures var t := Next(s, pid, a);
            && SameFiles(s, t)
            && (if HoldsLock(ProcessOf(t, pid)) then s.lock == None && t.lock == Some(pid) && ProcessOf(t, pid).Locked?
                else t.lock == s.lock)
  {
  }

  /** The steps that only move the process, and those that write: each leaves its next condition true. */
  lemma AllocateWorks(s: Store, content: string, temp: string)
    requires FilesOk(s) && Working(s, HasRoom(content))
    ensures Working(Allocate(s, temp), Writing(content, temp, s.next))
  {
    AllocateIsSafe(s, temp);
  }

  lemma WriteWorks(s: Store, content: string, temp: string, inode: Inode, body: string)
    requires Working(s, Writing(content, temp, inode))
    ensures Working(SetBytes(s, inode, body), Writing(content, temp, inode))
    ensures body == content ==> Working(SetBytes(s, inode, body), Written(content, temp, inode))
  {
  }

  lemma GoWorks(s: Store, pid: Pid, p: Process)
    requires Working(s, p)
    ensures Working(Go(s, pid, p), p)
  {
  }

  lemma InsideLock(s: Store, pid: Pid, p: Process, a: Action)
    requires HoldsLock(p) && ProcessOf(s, pid) == p && s.lock == Some(pid)
    ensures var t := InsideStep(s, pid, p, a);
            t.lock == if HoldsLock(ProcessOf(t, pid)) then Some(pid) else None
  {
  }

  lemma InsideWorks(s: Store, pid: Pid, p: Process, a: Action)
    requires FilesOk(s) && Working(s, p) && ProcessOf(s, pid) == p
    ensures var t := InsideStep(s, pid, p, a);
            Working(t, ProcessOf(t, pid))
  {
    match p {
      case HasRoom(content) =>
        if a.Create? && a.temp !in s.temps {
          AllocateWorks(s, content, a.temp);
          GoWorks(Allocate(s, a.temp), pid, Writing(content, a.temp, s.next));
        }
      case Writing(content, temp, inode) =>
        if a.WritePart? && a.length <= |content| {
          WriteWorks(s, content, temp, inode, content[..a.length]);
          GoWorks(SetBytes(s, inode, content[..a.length]), pid, p);
        } else if a.WriteAll? {
          WriteWorks(s, content, temp, inode, content);
          GoWorks(SetBytes(s, inode, content), pid, Written(content, temp, inode));
        }
      case _ =>
    }
  }

  /** The lock holder keeps the lock until it leaves, and its own next condition holds. */
  lemma NextInside(s: Store, pid: Pid, a: Action)
    requires FilesOk(s) && Working(s, ProcessOf(s, pid)) && HoldsLock(ProcessOf(s, pid))
    requires s.lock == Some(pid)
    ensures var t := Next(s, pid, a);
            && Working(t, ProcessOf(t, pid))
            && t.lock == if HoldsLock(ProcessOf(t, pid)) then Some(pid) else None
  {
    InsideWorks(s, pid, ProcessOf(s, pid), a);
    InsideLock(s, pid, ProcessOf(s, pid), a);
  }

  /** What a process may rely on after a step of `pid`, and whether it holds the lock. */
  lemma NextKeepsProcess(s: Store, pid: Pid, a: Action, q: Pid)
    requires Inv(s)
    ensures var t := Next(s, pid, a);
            Working(t, ProcessOf(t, q)) && (HoldsLock(ProcessOf(t, q)) <==> t.lock == Some(q))
  {
    NextMovesOne(s, pid, a);
    assert q != pid ==> ProcessOf(Next(s, pid, a), q) == ProcessOf(s, q);
    if HoldsLock(ProcessOf(s, pid)) {
      NextInside(s, pid, a);
    } else {
      NextOutside(s, pid, a);
    }
  }

  /** Every step of every process keeps the invariant and every published file. */
  lemma NextIsSafe(s: Store, pid: Pid, a: Action)
    requires Inv(s)
    ensures Inv(Next(s, pid, a)) && Preserves(s, Next(s, pid, a))
  {
    var t := Next(s, pid, a);
    NextKeepsFiles(s, pid, a);
    forall q: Pid ensures Working(t, ProcessOf(t, q)) && (HoldsLock(ProcessOf(t, q)) <==> t.lock == Some(q)) {
      NextKeepsProcess(s, pid, a, q);
    }
  }

  // --- Runs --------------------------------------------------------------------------------

  datatype Move = Move(pid: Pid, action: Action)

  /** Any interleaving of any processes. */
  function Run(s: Store, moves: seq<Move>): Store
    decreases |moves|
  {
    if moves == [] then s else Run(Next(s, moves[0].pid, moves[0].action), moves[1..])
  }

  /**
   * Over every interleaving of every number of processes, with crashes anywhere: published
   * generations are complete and match their names, none is lost or overwritten, and there
   * are at most 256 of them.
   */
  lemma {:induction false} RunsAreSafe(s: Store, moves: seq<Move>)
    requires Inv(s)
    ensures Inv(Run(s, moves)) && Preserves(s, Run(s, moves))
    decreases |moves|
  {
    if moves != [] {
      NextIsSafe(s, moves[0].pid, moves[0].action);
      RunsAreSafe(Next(s, moves[0].pid, moves[0].action), moves[1..]);
    }
  }

  /** The same from an empty directory. */
  lemma FreshRunsAreSafe(moves: seq<Move>)
    ensures var t := Run(Store(map[], map[], map[], 0, None, map[]), moves);
            PublishedComplete(t) && Bounded(t)
  {
    RunsAreSafe(Store(map[], map[], map[], 0, None, map[]), moves);
  }
}
