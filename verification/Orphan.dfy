/** What an agent may conclude about a process group it started before it
  * restarted (agentproc.go). */
module Orphan {

  /** The journal's record of the process; pid 0 when it was never written, an
    * empty token when the identity could not be read. */
  datatype ProcessRecord = ProcessRecord(pid: int, pgid: int, token: string)

  const NO_PROCESS := ProcessRecord(0, 0, "")

  /** One observation of the process table: processStartToken(pid) and
    * processGroupExists(pgid). */
  datatype Probe = Probe(tokenKnown: bool, token: string, groupExists: bool, groupError: bool)

  datatype Verdict = Verdict(ended: bool, owned: bool)

  /** verifyOrphan */
  function VerifyOrphan(started: bool, record: ProcessRecord, probe: Probe): Verdict {
    if !started then Verdict(true, true)
    else if record.pid <= 0 || record.pgid <= 0 then Verdict(false, false)
    else if record.token == "" then
      if !probe.groupExists && !probe.groupError then Verdict(true, true) else Verdict(false, false)
    else if !probe.tokenKnown && !probe.groupExists && !probe.groupError then Verdict(true, true)
    else if probe.tokenKnown && probe.token == record.token then Verdict(false, true)
    else Verdict(false, false)
  }

  /** What the operating system guarantees of an observation: the group of a
    * living leader is found, and a start token identifies one process. */
  ghost predicate Truthful(probe: Probe, leaderAlive: bool, leaderToken: string) {
    && (leaderAlive ==> probe.groupExists)
    && (probe.tokenKnown ==> (probe.token == leaderToken <==> leaderAlive))
  }

  /** What the journal may say about a launched leader. */
  ghost predicate Recorded(record: ProcessRecord, leaderToken: string) {
    record.pid > 0 && record.pgid > 0 && (record.token == "" || record.token == leaderToken)
  }

  /** ABORTED is only ever concluded about a leader that is gone, and a group is
    * only ever signalled while its recorded leader is provably alive. */
  lemma VerdictIsSound(record: ProcessRecord, probe: Probe, leaderAlive: bool, leaderToken: string)
    requires Truthful(probe, leaderAlive, leaderToken)
    requires record.pid > 0 && record.pgid > 0 ==> Recorded(record, leaderToken)
    ensures var v := VerifyOrphan(true, record, probe);
      && (v.ended ==> !leaderAlive && record.pid > 0)
      && (v.owned && !v.ended ==> leaderAlive && record.token != "" && record.token == leaderToken == probe.token)
  {
  }

  /** Exactly when a launched run is declared over, or declared still ours. */
  lemma VerdictIsExact(record: ProcessRecord, probe: Probe)
    ensures var v := VerifyOrphan(true, record, probe);
      var known := record.pid > 0 && record.pgid > 0;
      && (v.ended <==> known && !probe.groupExists && !probe.groupError && (record.token == "" || !probe.tokenKnown))
      && (v.owned && !v.ended <==> known && record.token != "" && probe.tokenKnown && probe.token == record.token)
      && (v.ended ==> v.owned)
  {
  }
}
