/** What the record of a system-call log says about the completed calls: nothing lost or
    counted twice, attempts kept apart from successes, and where a socket label comes from. */
module StraceFacts {
  import opened Wrappers
  import opened TextSearch
  import opened StraceLog

  // ----------------------------------------------------------------------------------------
  // Calls by name
  // ----------------------------------------------------------------------------------------

  const OPEN_CALLS := {"open", "openat", "openat2"}
  const WRITE_CALLS := {"write", "writev", "pwrite64", "pwritev"}
  const READ_CALLS := {"read", "readv", "pread64", "preadv"}
  const EXEC_CALLS := {"execve", "execveat"}
  const DUP_CALLS := {"dup", "dup2", "dup3"}

  predicate Succeeds(c: Call) {
    c.sys.result.Some? && c.sys.result.value >= 0
  }

  predicate MovesBytes(c: Call) {
    c.sys.result.Some? && c.sys.result.value > 0
  }

  predicate AsksToWrite(c: Call) {
    Contains(c.sys.rest, "O_CREAT") || Contains(c.sys.rest, "O_RDWR") || Contains(c.sys.rest, "O_WRONLY")
  }

  predicate Opens(c: Call) {
    c.sys.name in OPEN_CALLS && c.sys.quoted != []
  }

  predicate WritesTo(c: Call) {
    c.sys.name in WRITE_CALLS && c.sys.file.Some?
  }

  predicate ReadsFrom(c: Call) {
    c.sys.name in READ_CALLS && c.sys.file.Some?
  }

  predicate RunsImage(c: Call) {
    c.sys.name in EXEC_CALLS && c.sys.quoted != []
  }

  predicate Connects(c: Call) {
    c.sys.name == "connect" && c.sys.addr.Some?
  }

  /** A call that appears among the events. */
  predicate Tracked(c: Call) {
    c.sys.name in OPEN_CALLS + WRITE_CALLS + EXEC_CALLS + {"connect"}
  }

  lemma KindByName(c: Call)
    ensures KindOf(c.sys.name).Open? <==> c.sys.name in OPEN_CALLS
    ensures KindOf(c.sys.name).Write? <==> c.sys.name in WRITE_CALLS
    ensures KindOf(c.sys.name).Read? <==> c.sys.name in READ_CALLS
    ensures KindOf(c.sys.name).Exec? <==> c.sys.name in EXEC_CALLS
    ensures KindOf(c.sys.name).Dup? <==> c.sys.name in DUP_CALLS
    ensures KindOf(c.sys.name).Connect? <==> c.sys.name == "connect"
    ensures KindOf(c.sys.name).Socket? <==> c.sys.name == "socket"
    ensures KindOf(c.sys.name).Close? <==> c.sys.name == "close"
    ensures KindOf(c.sys.name).CloseRange? <==> c.sys.name == "close_range"
  {
  }

  lemma ByName(c: Call)
    ensures IsOpen(c) <==> Opens(c)
    ensures IsTransfer(c) && KindOf(c.sys.name).Write? <==> WritesTo(c)
    ensures IsTransfer(c) && KindOf(c.sys.name).Read? <==> ReadsFrom(c)
    ensures IsTransfer(c) ==> KindOf(c.sys.name).Write? || KindOf(c.sys.name).Read?
    ensures IsExec(c) <==> RunsImage(c)
    ensures IsConnection(c) <==> Connects(c)
    ensures IsTracked(c) <==> Tracked(c)
  {
    hide KindOf, OPEN_CALLS, WRITE_CALLS, READ_CALLS, EXEC_CALLS, DUP_CALLS;
    KindByName(c);
  }

  function Count(cs: seq<Call>, f: Call -> bool): nat
    decreases |cs|
  {
    if cs == [] then 0 else Count(cs[..|cs| - 1], f) + if f(cs[|cs| - 1]) then 1 else 0
  }

  function By(pid: string): Call -> bool {
    (c: Call) => c.pid == pid
  }

  /** `x` is in `s` exactly when some call satisfies `f` and names it with `key`. */
  ghost predicate Names(s: set<string>, cs: seq<Call>, f: Call -> bool, key: Call -> string) {
    forall x :: x in s <==> exists k | 0 <= k < |cs| :: f(cs[k]) && key(cs[k]) == x
  }

  // ----------------------------------------------------------------------------------------
  // Counting
  // ----------------------------------------------------------------------------------------

  function Total(procs: seq<Process>): nat {
    if procs == [] then 0 else procs[0].syscalls + Total(procs[1..])
  }

  function CountFor(procs: seq<Process>, pid: string): nat {
    if procs == [] then 0
    else (if procs[0].pid == pid then procs[0].syscalls else 0) + CountFor(procs[1..], pid)
  }

  predicate Distinct(procs: seq<Process>) {
    forall i, k | 0 <= i < k < |procs| :: procs[i].pid != procs[k].pid
  }

  predicate Has(procs: seq<Process>, pid: string) {
    exists i | 0 <= i < |procs| :: procs[i].pid == pid
  }

  lemma {:induction false} BumpCountsOnce(procs: seq<Process>, pid: string, other: string)
    requires Distinct(procs)
    ensures var after := Bump(procs, pid);
            && Total(after) == Total(procs) + 1
            && CountFor(after, other) == CountFor(procs, other) + (if other == pid then 1 else 0)
    decreases |procs|
  {
    if procs != [] && procs[0].pid != pid {
      BumpCountsOnce(procs[1..], pid, other);
    }
  }

  lemma {:induction false} BumpKeepsPids(procs: seq<Process>, pid: string)
    requires Distinct(procs)
    ensures Distinct(Bump(procs, pid))
    ensures forall q :: Has(Bump(procs, pid), q) <==> q == pid || Has(procs, q)
    decreases |procs|
  {
    var after := Bump(procs, pid);
    if procs == [] {
      assert after[0].pid == pid;
    } else if procs[0].pid == pid {
      assert forall i | 0 <= i < |procs| :: after[i].pid == procs[i].pid;
    } else {
      BumpKeepsPids(procs[1..], pid);
      assert after[0] == procs[0] && after[1..] == Bump(procs[1..], pid);
      forall k | 1 <= k < |after| ensures after[0].pid != after[k].pid {
        assert Has(after[1..], after[1..][k - 1].pid);
        assert Has(procs[1..], after[k].pid) || after[k].pid == pid;
      }
      forall q ensures Has(after, q) <==> q == pid || Has(procs, q) {
        HasSplit(after, q);
        HasSplit(procs, q);
      }
      forall i, k | 1 <= i < k < |after| ensures after[i].pid != after[k].pid {
        assert after[1..][i - 1].pid != after[1..][k - 1].pid;
      }
    }
  }

  lemma HasSplit(procs: seq<Process>, q: string)
    requires procs != []
    ensures Has(procs, q) <==> procs[0].pid == q || Has(procs[1..], q)
  {
    if Has(procs, q) && procs[0].pid != q {
      var i :| 0 <= i < |procs| && procs[i].pid == q;
      assert procs[1..][i - 1].pid == q;
    }
    if Has(procs[1..], q) {
      var i :| 0 <= i < |procs[1..]| && procs[1..][i].pid == q;
      assert procs[i + 1].pid == q;
    }
  }

  lemma {:induction false} SetImageKeepsCounts(procs: seq<Process>, pid: string, image: string, other: string)
    ensures var after := SetImage(procs, pid, image);
            && |after| == |procs|
            && (forall i | 0 <= i < |procs| :: after[i].pid == procs[i].pid && after[i].syscalls == procs[i].syscalls)
            && Total(after) == Total(procs)
            && CountFor(after, other) == CountFor(procs, other)
            && (Has(after, other) <==> Has(procs, other))
    decreases |procs|
  {
    if procs != [] && procs[0].pid != pid {
      SetImageKeepsCounts(procs[1..], pid, image, other);
      HasSplit(procs, other);
      HasSplit(SetImage(procs, pid, image), other);
    } else if procs != [] {
      HasSplit(procs, other);
      HasSplit(SetImage(procs, pid, image), other);
    }
  }

  lemma ProcsAfterCounts(procs: seq<Process>, c: Call, other: string)
    requires Distinct(procs)
    ensures var after := ProcsAfter(procs, c);
            && Total(after) == Total(procs) + 1
            && CountFor(after, other) == CountFor(procs, other) + (if other == c.pid then 1 else 0)
            && Distinct(after)
            && (Has(after, other) <==> other == c.pid || Has(procs, other))
  {
    hide Bump, SetImage, Total, CountFor, KindOf, Succeeded, Has;
    BumpCountsOnce(procs, c.pid, other);
    BumpKeepsPids(procs, c.pid);
    if IsExec(c) && Succeeded(c.sys) {
      SetImageKeepsCounts(Bump(procs, c.pid), c.pid, c.sys.quoted[0], other);
    }
  }

  /** Every completed call is counted once, in the total and for its process; one process
      record per process seen; kept and truncated events together are the tracked calls. */
  lemma {:induction false} NothingIsLost(cs: seq<Call>, pid: string)
    ensures var t := Replay(EMPTY, cs);
            && t.calls == |cs| == Total(t.procs)
            && CountFor(t.procs, pid) == Count(cs, By(pid))
            && Distinct(t.procs)
            && (Has(t.procs, pid) <==> exists k | 0 <= k < |cs| :: cs[k].pid == pid)
            && |t.events| + t.truncated == Count(cs, Tracked)
            && |t.events| <= 2000 && (t.truncated > 0 ==> |t.events| == 2000)
    decreases |cs|
  {
    hide ProcsAfter, SocketsAfter, WrittenAfter, ReadAfter, OpenedAfter, AttemptsAfter, EventOf, IsTracked, IsExec,
         IsConnection, Succeeded, Tracked;
    if cs != [] {
      var before, c := cs[..|cs| - 1], cs[|cs| - 1];
      NothingIsLost(before, pid);
      ByName(c);
      ProcsAfterCounts(Replay(EMPTY, before).procs, c, pid);
      assert forall k | 0 <= k < |before| :: cs[k] == before[k];
    }
  }

  // ----------------------------------------------------------------------------------------
  // Attempts and successes
  // ----------------------------------------------------------------------------------------

  predicate Attempts(c: Call) {
    (Opens(c) && AsksToWrite(c)) || WritesTo(c)
  }

  predicate Writes(c: Call) {
    WritesTo(c) && MovesBytes(c)
  }

  predicate Reads(c: Call) {
    ReadsFrom(c) && MovesBytes(c)
  }

  predicate OpensForWriting(c: Call) {
    Opens(c) && AsksToWrite(c) && Succeeds(c)
  }

  predicate OpensForReading(c: Call) {
    Opens(c) && !AsksToWrite(c) && Succeeds(c)
  }

  /** The file a call names: the first quoted string of an open, the annotated descriptor of a transfer. */
  function FileOf(c: Call): string {
    if Opens(c) then c.sys.quoted[0] else if c.sys.file.Some? then c.sys.file.value.path else ""
  }

  lemma NamesStep(s: set<string>, after: set<string>, cs: seq<Call>, f: Call -> bool)
    requires cs != []
    requires Names(s, cs[..|cs| - 1], f, FileOf)
    requires after == if f(cs[|cs| - 1]) then s + {FileOf(cs[|cs| - 1])} else s
    ensures Names(after, cs, f, FileOf)
  {
    var n := |cs| - 1;
    forall x ensures x in after <==> exists k | 0 <= k < |cs| :: f(cs[k]) && FileOf(cs[k]) == x {
      if x in s {
        var k :| 0 <= k < n && f(cs[..n][k]) && FileOf(cs[..n][k]) == x;
        assert f(cs[k]) && FileOf(cs[k]) == x;
      }
      if k :| 0 <= k < |cs| && f(cs[k]) && FileOf(cs[k]) == x {
        assert k < n ==> f(cs[..n][k]) && FileOf(cs[..n][k]) == x;
      }
    }
  }

  lemma FileSetsStep(t: Trace, c: Call)
    ensures var after := Record(t, c);
            && after.written == (if Writes(c) then t.written + {FileOf(c)} else t.written)
            && after.read == (if Reads(c) then t.read + {FileOf(c)} else t.read)
            && after.openedForWrite == (if OpensForWriting(c) then t.openedForWrite + {FileOf(c)} else t.openedForWrite)
            && after.openedForRead == (if OpensForReading(c) then t.openedForRead + {FileOf(c)} else t.openedForRead)
            && after.writeAttempts == (if Attempts(c) then t.writeAttempts + {FileOf(c)} else t.writeAttempts)
  {
    hide ProcsAfter, SocketsAfter, EventOf, KindOf, IsTracked, IsConnection, IsOpen, IsTransfer, IsExec, Contains;
    hide OPEN_CALLS, WRITE_CALLS, READ_CALLS;
    ByName(c);
    OpenIsNoTransfer(c);
  }

  lemma OpenIsNoTransfer(c: Call)
    ensures !(Opens(c) && (WritesTo(c) || ReadsFrom(c))) && !(WritesTo(c) && ReadsFrom(c))
    ensures IsOpen(c) ==> c.sys.quoted != []
    ensures IsTransfer(c) ==> c.sys.file.Some?
  {
  }

  /** Each file set of the summary holds exactly the files of the calls it is about. */
  lemma {:induction false} FileSetsAreExact(cs: seq<Call>)
    ensures var t := Replay(EMPTY, cs);
            && Names(t.written, cs, Writes, FileOf)
            && Names(t.read, cs, Reads, FileOf)
            && Names(t.openedForWrite, cs, OpensForWriting, FileOf)
            && Names(t.openedForRead, cs, OpensForReading, FileOf)
            && Names(t.writeAttempts, cs, Attempts, FileOf)
    decreases |cs|
  {
    hide Record, Writes, Reads, OpensForWriting, OpensForReading, Attempts, FileOf;
    if cs != [] {
      var before, c := cs[..|cs| - 1], cs[|cs| - 1];
      hide Names;
      FileSetsAreExact(before);
      var t, after := Replay(EMPTY, before), Replay(EMPTY, cs);
      FileSetsStep(t, c);
      NamesStep(t.written, after.written, cs, Writes);
      NamesStep(t.read, after.read, cs, Reads);
      NamesStep(t.openedForWrite, after.openedForWrite, cs, OpensForWriting);
      NamesStep(t.openedForRead, after.openedForRead, cs, OpensForReading);
      NamesStep(t.writeAttempts, after.writeAttempts, cs, Attempts);
    }
  }

  /** No file counts as written, or as opened for writing, without an attempt on it. */
  lemma {:induction false} WrittenWasAttempted(cs: seq<Call>)
    ensures var t := Replay(EMPTY, cs);
            t.written <= t.writeAttempts && t.openedForWrite <= t.writeAttempts
  {
    hide Replay, FileOf, Opens, WritesTo, AsksToWrite, Succeeds, MovesBytes;
    FileSetsAreExact(cs);
  }

  /** `s` is `t` with some elements left out. */
  ghost predicate Subsequence<T>(s: seq<T>, t: seq<T>)
    decreases |t|
  {
    if t == [] then s == []
    else
      || Subsequence(s, t[..|t| - 1])
      || (s != [] && s[|s| - 1] == t[|t| - 1] && Subsequence(s[..|s| - 1], t[..|t| - 1]))
  }

  predicate Executes(c: Call) {
    RunsImage(c) && Succeeds(c)
  }

  function ImageOf(c: Call): string {
    if RunsImage(c) then c.sys.quoted[0] else ""
  }

  /** The images of the calls that satisfy `f`, in order. */
  function Images(cs: seq<Call>, f: Call -> bool): seq<string>
    decreases |cs|
  {
    if cs == [] then [] else Images(cs[..|cs| - 1], f) + if f(cs[|cs| - 1]) then [ImageOf(cs[|cs| - 1])] else []
  }

  /** The attempted images are those of the exec calls, the executed ones those of the successful exec calls,
      both in order; so the second list is a part of the first, and there is one event for each attempt. */
  lemma {:induction false} ExecutedWasAttempted(cs: seq<Call>)
    ensures var t := Replay(EMPTY, cs);
            && t.execAttempts == Images(cs, RunsImage)
            && t.execs == Images(cs, Executes)
            && Subsequence(t.execs, t.execAttempts)
            && |t.execAttempts| == |t.execEvents| == Count(cs, RunsImage)
            && |t.execs| == Count(cs, Executes)
    decreases |cs|
  {
    hide ProcsAfter, SocketsAfter, WrittenAfter, ReadAfter, OpenedAfter, AttemptsAfter, EventOf, IsExec, RunsImage,
         IsTracked, IsConnection;
    if cs != [] {
      var before, c := cs[..|cs| - 1], cs[|cs| - 1];
      ExecutedWasAttempted(before);
      ByName(c);
      var t, after := Replay(EMPTY, before), Replay(EMPTY, cs);
      assert IsExec(c) ==> after.execAttempts[..|after.execAttempts| - 1] == t.execAttempts;
      assert Executes(c) ==> after.execs[..|after.execs| - 1] == t.execs;
    }
  }

  // ----------------------------------------------------------------------------------------
  // The image of a process
  // ----------------------------------------------------------------------------------------

  /** The image of the last successful exec of a process. */
  function LastImage(cs: seq<Call>, pid: string): Option<string>
    decreases |cs|
  {
    if cs == [] then None
    else if cs[|cs| - 1].pid == pid && Executes(cs[|cs| - 1]) then Some(ImageOf(cs[|cs| - 1]))
    else LastImage(cs[..|cs| - 1], pid)
  }

  function ImageIn(procs: seq<Process>, pid: string): Option<string> {
    if procs == [] then None else if procs[0].pid == pid then procs[0].image else ImageIn(procs[1..], pid)
  }

  lemma {:induction false} BumpKeepsImages(procs: seq<Process>, pid: string, other: string)
    ensures ImageIn(Bump(procs, pid), other) == ImageIn(procs, other)
    decreases |procs|
  {
    if procs != [] && procs[0].pid != pid {
      BumpKeepsImages(procs[1..], pid, other);
    }
  }

  lemma {:induction false} SetImageSets(procs: seq<Process>, pid: string, image: string, other: string)
    requires Has(procs, pid)
    ensures ImageIn(SetImage(procs, pid, image), other) == if other == pid then Some(image) else ImageIn(procs, other)
    decreases |procs|
  {
    HasSplit(procs, pid);
    if procs[0].pid != pid {
      SetImageSets(procs[1..], pid, image, other);
    }
  }

  lemma {:induction false} ImagesFollowExecs(cs: seq<Call>, pid: string)
    ensures ImageIn(Replay(EMPTY, cs).procs, pid) == LastImage(cs, pid)
    decreases |cs|
  {
    hide Bump, SetImage, ImageIn, IsExec, RunsImage, Has, SocketsAfter, EventOf, IsTracked, IsConnection, OpenedAfter;
    if cs == [] {
      NoImages(pid);
    } else {
      var before, c := cs[..|cs| - 1], cs[|cs| - 1];
      ImagesFollowExecs(before, pid);
      NothingIsLost(before, c.pid);
      ByName(c);
      var procs := Replay(EMPTY, before).procs;
      BumpKeepsImages(procs, c.pid, pid);
      BumpKeepsPids(procs, c.pid);
      if IsExec(c) {
        ExecNames(c);
        SetImageSets(Bump(procs, c.pid), c.pid, c.sys.quoted[0], pid);
      }
    }
  }

  lemma NoImages(pid: string)
    ensures ImageIn([], pid) == None
  {
  }

  lemma ExecNames(c: Call)
    requires IsExec(c)
    ensures c.sys.quoted != [] && ImageOf(c) == c.sys.quoted[0]
  {
  }

  lemma {:induction false} OnlyImage(procs: seq<Process>, i: nat)
    requires i < |procs| && Distinct(procs)
    ensures ImageIn(procs, procs[i].pid) == procs[i].image
    decreases |procs|
  {
    if i > 0 {
      assert procs[0].pid != procs[i].pid;
      OnlyImage(procs[1..], i - 1);
    }
  }

  /** The image of every process record is that of the process's last successful exec, if it made one. */
  lemma ImageIsLastExec(cs: seq<Call>, i: nat)
    requires i < |Replay(EMPTY, cs).procs|
    ensures var p := Replay(EMPTY, cs).procs[i];
            && p.image == LastImage(cs, p.pid)
            && (p.image.None? <==> forall k | 0 <= k < |cs| :: !(cs[k].pid == p.pid && Executes(cs[k])))
  {
    hide Replay, Executes, Distinct;
    var p := Replay(EMPTY, cs).procs[i];
    NothingIsLost(cs, p.pid);
    OnlyImage(Replay(EMPTY, cs).procs, i);
    ImagesFollowExecs(cs, p.pid);
    NoImageMeansNoExec(cs, p.pid);
  }

  lemma {:induction false} NoImageMeansNoExec(cs: seq<Call>, pid: string)
    ensures LastImage(cs, pid).None? <==> forall k | 0 <= k < |cs| :: !(cs[k].pid == pid && Executes(cs[k]))
    decreases |cs|
  {
    hide Executes;
    if cs != [] {
      var n := |cs| - 1;
      NoImageMeansNoExec(cs[..n], pid);
      assert forall k | 0 <= k < n :: cs[..n][k] == cs[k];
    }
  }

  // ----------------------------------------------------------------------------------------
  // What an event says
  // ----------------------------------------------------------------------------------------

  /** The event repeats its call, with the path, image or address that the call names. */
  predicate Describes(e: Event, c: Call) {
    && e.pid == c.pid && e.at == c.at && e.name == c.sys.name && e.result == c.sys.result && e.errno == c.sys.errno
    && e.success == (if c.sys.result.None? then None else Some(c.sys.result.value >= 0))
    && e.path == (if Opens(c) then Some(c.sys.quoted[0])
                  else if WritesTo(c) || ReadsFrom(c) then Some(c.sys.file.value.path)
                  else None)
    && e.device == (if WritesTo(c) || ReadsFrom(c) then c.sys.file.value.device else None)
    && e.image == (if RunsImage(c) then Some(c.sys.quoted[0]) else None)
    && e.arguments == (if RunsImage(c) then c.sys.quoted else [])
    && e.dst == (if Connects(c) then Some(c.sys.addr.value + ":" + if c.sys.port.Some? then c.sys.port.value else "?")
                 else None)
    && (e.protocol.Some? <==> Connects(c))
    && e.established == (if e.protocol == Some(Tcp) then e.success else None)
  }

  lemma EventDescribes(s: Sockets, c: Call)
    ensures Describes(EventOf(s, c), c)
  {
    hide KindOf, IsOpen, IsTransfer, IsExec, IsConnection, ConnectProtocol, OPEN_CALLS, WRITE_CALLS, READ_CALLS,
         EXEC_CALLS;
    ByName(c);
    OpenIsNoTransfer(c);
    NamesAreApart(c);
  }

  lemma NamesAreApart(c: Call)
    ensures IsExec(c) ==> !IsOpen(c) && !IsTransfer(c) && c.sys.quoted != []
    ensures IsConnection(c) ==> !IsOpen(c) && !IsTransfer(c) && !IsExec(c) && c.sys.addr.Some?
    ensures IsTransfer(c) ==> !IsOpen(c)
  {
  }

  // ----------------------------------------------------------------------------------------
  // Where a socket label comes from
  // ----------------------------------------------------------------------------------------

  function Table(cs: seq<Call>): Sockets {
    Replay(EMPTY, cs).sockets
  }

  /** The arguments of a `socket` call that ask for the transport. */
  predicate AsksFor(parts: seq<string>, proto: Protocol) {
    && |parts| == 3 && parts[0] in {"AF_INET", "AF_INET6"}
    && var stream := Contains(parts[1], "SOCK_STREAM") && parts[2] in {"0", "IPPROTO_IP", "IPPROTO_TCP"};
       match proto
       case Tcp => stream
       case Udp => !stream && Contains(parts[1], "SOCK_DGRAM") && parts[2] in {"0", "IPPROTO_IP", "IPPROTO_UDP"}
       case Unknown => false
  }

  lemma TransportAskedFor(parts: seq<string>, proto: Protocol)
    requires proto != Unknown
    ensures Transport(parts) == proto <==> AsksFor(parts, proto)
  {
    hide Contains;
  }

  /** A socket call of `pid` that made descriptor `fd` with that transport. */
  predicate Creates(c: Call, pid: string, fd: int, proto: Protocol) {
    c.sys.name == "socket" && c.pid == pid && c.sys.result == Some(fd) && fd >= 0 && AsksFor(c.sys.parts, proto)
  }

  /** A successful duplication of descriptor `from` to `to` in process `pid`. */
  predicate Copies(c: Call, pid: string, from: int, to: int) {
    c.sys.name in DUP_CALLS && c.pid == pid && c.sys.fd.Some? && c.sys.fd.value == from && c.sys.result == Some(to)
      && to >= 0
  }

  /** A successful call of `pid` after which `fd` no longer carries the label it had. */
  predicate Disturbs(c: Call, pid: string, fd: int) {
    c.pid == pid && Succeeds(c) &&
    (|| (c.sys.result.value == fd && (Opens(c) || c.sys.name == "socket" || c.sys.name in DUP_CALLS))
     || (c.sys.name == "close" && c.sys.fd.Some? && c.sys.fd.value == fd)
     || c.sys.name == "close_range")
  }

  predicate Untouched(cs: seq<Call>, lo: nat, hi: nat, pid: string, fd: int)
    requires hi <= |cs|
  {
    forall k | lo <= k < hi :: !Disturbs(cs[k], pid, fd)
  }

  /** One link of a chain: the call at `at` gave descriptor `fd` its label. */
  datatype Hop = Hop(at: nat, fd: int)

  /** A socket call of that transport, then successful duplications of the previous descriptor,
      with no linked descriptor disturbed before its next use or before `end`. */
  predicate Chain(cs: seq<Call>, end: nat, pid: string, fd: int, proto: Protocol, hops: seq<Hop>)
    requires end <= |cs|
    decreases |hops|
  {
    hops != [] &&
    var last := hops[|hops| - 1];
    && last.at < end && last.fd == fd && Untouched(cs, last.at + 1, end, pid, fd)
    && if |hops| == 1 then Creates(cs[last.at], pid, fd, proto)
       else
         var source := hops[|hops| - 2].fd;
         Copies(cs[last.at], pid, source, fd) && Chain(cs, last.at, pid, source, proto, hops[..|hops| - 1])
  }

  lemma UndisturbedKeepsLabel(s: Sockets, c: Call, pid: string, fd: int)
    requires !Disturbs(c, pid, fd)
    ensures Lookup(SocketsAfter(s, c), pid, fd) == Lookup(s, pid, fd)
  {
    hide KindOf, Transport, OPEN_CALLS, DUP_CALLS;
    KindByName(c);
  }

  lemma TableStep(cs: seq<Call>, k: nat)
    requires k < |cs|
    ensures Table(cs[..k + 1]) == SocketsAfter(Table(cs[..k]), cs[k])
  {
    hide SocketsAfter;
    ReplayStep(EMPTY, cs, k);
  }

  lemma {:induction false} ChainGivesLabel(cs: seq<Call>, end: nat, pid: string, fd: int, proto: Protocol,
                                           hops: seq<Hop>)
    requires end <= |cs| && proto != Unknown && Chain(cs, end, pid, fd, proto, hops)
    ensures Lookup(Table(cs[..end]), pid, fd) == proto
    decreases end
  {
    hide Table, KindOf, Transport, AsksFor, OPEN_CALLS, DUP_CALLS;
    TableStep(cs, end - 1);
    KindByName(cs[end - 1]);
    TransportAskedFor(cs[end - 1].sys.parts, proto);
    var last, c := hops[|hops| - 1], cs[end - 1];
    if last.at == end - 1 {
      if |hops| > 1 {
        ChainGivesLabel(cs, end - 1, pid, hops[|hops| - 2].fd, proto, hops[..|hops| - 1]);
      }
    } else {
      UndisturbedKeepsLabel(Table(cs[..end - 1]), c, pid, fd);
      ChainGivesLabel(cs, end - 1, pid, fd, proto, hops);
    }
  }

  lemma {:induction false} LabelHasChain(cs: seq<Call>, end: nat, pid: string, fd: int, proto: Protocol)
    returns (hops: seq<Hop>)
    requires end <= |cs| && proto != Unknown && Lookup(Table(cs[..end]), pid, fd) == proto
    ensures Chain(cs, end, pid, fd, proto, hops)
    decreases end
  {
    hide Table, KindOf, Transport, AsksFor, OPEN_CALLS, DUP_CALLS;
    if end == 0 {
      assert cs[..0] == [];
      EmptyTable();
      assert false;
    } else {
      TableStep(cs, end - 1);
      var s, c := Table(cs[..end - 1]), cs[end - 1];
      KindByName(c);
      TransportAskedFor(c.sys.parts, proto);
      if !Disturbs(c, pid, fd) {
        UndisturbedKeepsLabel(s, c, pid, fd);
        hops := LabelHasChain(cs, end - 1, pid, fd, proto);
      } else if c.sys.name == "socket" {
        hops := [Hop(end - 1, fd)];
      } else {
        var before := LabelHasChain(cs, end - 1, pid, c.sys.fd.value, proto);
        hops := before + [Hop(end - 1, fd)];
        assert hops[..|hops| - 1] == before;
      }
    }
  }

  lemma EmptyTable()
    ensures Table([]) == map[]
  {
  }

  /** A descriptor carries a transport label exactly when a chain leads to a socket call. */
  lemma LabelIffChain(cs: seq<Call>, end: nat, pid: string, fd: int, proto: Protocol)
    requires end <= |cs| && proto != Unknown
    ensures Lookup(Table(cs[..end]), pid, fd) == proto <==> exists hops :: Chain(cs, end, pid, fd, proto, hops)
  {
    hide Chain, Table, Lookup;
    if Lookup(Table(cs[..end]), pid, fd) == proto {
      var hops := LabelHasChain(cs, end, pid, fd, proto);
    }
    if hops :| Chain(cs, end, pid, fd, proto, hops) {
      ChainGivesLabel(cs, end, pid, fd, proto, hops);
    }
  }

  lemma RecordAdds(t: Trace, c: Call)
    ensures var after, e := Record(t, c), EventOf(t.sockets, c);
            && after.connections == t.connections + (if Connects(c) then [e] else [])
            && after.execEvents == t.execEvents + (if RunsImage(c) then [e] else [])
            && after.events == t.events + (if Tracked(c) && |t.events| < MAX_EVENTS then [e] else [])
  {
    hide EventOf, ProcsAfter, SocketsAfter, WrittenAfter, ReadAfter, OpenedAfter, AttemptsAfter, IsConnection, IsExec,
         IsTracked, Succeeded, Connects, RunsImage, Tracked;
    ByName(c);
  }

  /** What the last call of a log adds to the lists of events. */
  lemma LastCallAdds(cs: seq<Call>)
    requires cs != []
    ensures var n := |cs| - 1;
            var t, after, e := Replay(EMPTY, cs[..n]), Replay(EMPTY, cs), EventOf(Table(cs[..n]), cs[n]);
            && after.connections == t.connections + (if Connects(cs[n]) then [e] else [])
            && after.execEvents == t.execEvents + (if RunsImage(cs[n]) then [e] else [])
            && after.events == t.events + (if Tracked(cs[n]) && |t.events| < MAX_EVENTS then [e] else [])
    ensures var n := |cs| - 1;
            && Count(cs, Connects) == Count(cs[..n], Connects) + (if Connects(cs[n]) then 1 else 0)
            && Count(cs, RunsImage) == Count(cs[..n], RunsImage) + (if RunsImage(cs[n]) then 1 else 0)
            && Count(cs, Tracked) == Count(cs[..n], Tracked) + (if Tracked(cs[n]) then 1 else 0)
  {
    hide Record, EventOf, Connects, RunsImage, Tracked;
    RecordAdds(Replay(EMPTY, cs[..|cs| - 1]), cs[|cs| - 1]);
  }

  /** Connection events correspond one to one, in order, to the connect calls with an address. */
  lemma {:induction false} ConnectionOfCall(cs: seq<Call>, k: nat)
    requires k < |cs| && Connects(cs[k])
    ensures var t := Replay(EMPTY, cs);
            && |t.connections| == Count(cs, Connects)
            && Count(cs[..k], Connects) < |t.connections|
            && t.connections[Count(cs[..k], Connects)] == EventOf(Table(cs[..k]), cs[k])
    decreases |cs|
  {
    hide EventOf, Table, Replay, Count, Connects;
    var n := |cs| - 1;
    LastCallAdds(cs);
    ConnectionsAreCounted(cs[..n]);
    assert cs[..n][..k] == cs[..k];
    if k < n {
      ConnectionOfCall(cs[..n], k);
    }
  }

  /** The events kept are those of the first tracked calls, in order. */
  lemma {:induction false} KeptEventsAreTheFirst(cs: seq<Call>, k: nat)
    requires k < |cs| && Tracked(cs[k]) && Count(cs[..k], Tracked) < 2000
    ensures var t := Replay(EMPTY, cs);
            && Count(cs[..k], Tracked) < |t.events|
            && t.events[Count(cs[..k], Tracked)] == EventOf(Table(cs[..k]), cs[k])
            && Describes(t.events[Count(cs[..k], Tracked)], cs[k])
    decreases |cs|
  {
    hide EventOf, Table, Replay, Count, Total, CountFor, Has, Distinct, Tracked, Describes;
    EventDescribes(Table(cs[..k]), cs[k]);
    var n := |cs| - 1;
    LastCallAdds(cs);
    NothingIsLost(cs[..n], "");
    assert cs[..n][..k] == cs[..k];
    if k < n {
      KeptEventsAreTheFirst(cs[..n], k);
    }
  }

  /** There is one exec event for each exec call, in order. */
  lemma {:induction false} ExecEventOfCall(cs: seq<Call>, k: nat)
    requires k < |cs| && RunsImage(cs[k])
    ensures var t, i := Replay(EMPTY, cs), Count(cs[..k], RunsImage);
            i < |t.execEvents| == Count(cs, RunsImage) && Describes(t.execEvents[i], cs[k])
    decreases |cs|
  {
    hide EventOf, Table, Replay, Count, Images, Subsequence, RunsImage, Describes;
    var n := |cs| - 1;
    LastCallAdds(cs);
    ExecutedWasAttempted(cs[..n]);
    EventDescribes(Table(cs[..n]), cs[n]);
    assert cs[..n][..k] == cs[..k];
    if k < n {
      ExecEventOfCall(cs[..n], k);
    }
  }

  lemma {:induction false} ConnectionsAreCounted(cs: seq<Call>)
    ensures |Replay(EMPTY, cs).connections| == Count(cs, Connects)
    decreases |cs|
  {
    hide EventOf, Connects;
    if cs != [] {
      LastCallAdds(cs);
      ConnectionsAreCounted(cs[..|cs| - 1]);
    }
  }

  /** The transport a connection is reported with: what the descriptor's annotation says, and
      without one, tcp or udp exactly when its descriptor is chained to such a socket call. */
  lemma ConnectionLabelHasProvenance(cs: seq<Call>, k: nat, proto: Protocol)
    requires k < |cs| && Connects(cs[k]) && proto != Unknown
    ensures var c := cs[k];
            var all, i := Replay(EMPTY, cs).connections, Count(cs[..k], Connects);
            && i < |all| == Count(cs, Connects)
            && var event := all[i];
            && Describes(event, c)
            && (event.protocol == Some(proto) <==>
                  if Contains(c.sys.rest, "<TCP") then proto == Tcp
                  else if Contains(c.sys.rest, "<UDP") then proto == Udp
                  else c.sys.fd.Some? && exists hops :: Chain(cs, k, c.pid, c.sys.fd.value, proto, hops))
  {
    hide Contains, Chain, Table, Replay, Count, KindOf, Describes, IsOpen, IsTransfer, IsExec, IsConnection, Connects;
    ConnectionOfCall(cs, k);
    EventDescribes(Table(cs[..k]), cs[k]);
    ByName(cs[k]);
    NamesAreApart(cs[k]);
    if cs[k].sys.fd.Some? {
      LabelIffChain(cs, k, cs[k].pid, cs[k].sys.fd.value, proto);
    }
  }
}
