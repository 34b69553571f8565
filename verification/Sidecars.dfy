/**
 * The sidecar part of a configure transaction: an atomic exchange of a live sidecar with
 * its replacement, whose report can be wrong, plus sidecars created without replacing
 * anything (host_agent_configure_sidecar_replacement.go,
 * host_agent_configure_sidecar_rollback.go, host_agent_configure_sidecar_commit.go,
 * host_agent_configure_sidecar_verification.go).
 *
 * Reads, syncs and proofs may fail at any time, but a successful one is truthful. An
 * exchange that reports success did swap; one that reports an error may or may not have.
 */
module Sidecars {
  import opened Basics

  datatype Inode = Original | Replacement

  datatype Step = CommitStep | RollbackStep | FinalizeStep | AbortStep

  /** How an exchange is classified after looking at both paths. */
  datatype Exchanged = Swapped | SwappedWithError | NotSwapped | Unclear

  class Sidecars {
    /** Whether a live sidecar is adopted, and the paths of the sidecars to create. */
    const adopting: bool
    const planned: seq<string>

    // The disk: the adopted destination, the path beside it, and the created sidecars.
    var destination: Inode
    var backup: Option<Inode>
    var installed: set<string>

    // The transaction's own fields.
    var replaced: bool
    var ambiguous: bool
    var committed: bool
    var finalized: bool
    var backupNamed: bool
    var authority: bool
    var created: set<string>

    /** Set when a committed Finalize unlinks the backup. */
    ghost var cleanup: bool

    /** The original inode is at the destination or at the backup path until a committed Finalize. */
    ghost predicate OriginalKept()
      reads this
    {
      && (destination == Original || backup == Some(Original) || cleanup)
      && (cleanup ==> committed && destination == Replacement)
    }

    /** Not replaced means not swapped; replaced and not ambiguous means swapped. */
    ghost predicate FlagsTrue()
      reads this
    {
      && (!replaced ==> destination == Original)
      && (replaced && !ambiguous ==> destination == Replacement)
    }

    /** Every sidecar is in its new form. */
    ghost predicate NewForm()
      reads this
    {
      (adopting ==> destination == Replacement) && forall path :: path in planned ==> path in installed
    }

    ghost predicate DiskOk()
      reads this
    {
      && OriginalKept()
      && (backup.Some? ==> backup.value != destination && !cleanup)
    }

    ghost predicate Valid()
      reads this
    {
      && DiskOk() && FlagsTrue()
      && (cleanup ==> replaced)
      && created <= installed
    }

    constructor (adopting: bool, planned: seq<string>)
      ensures Valid() && !committed && installed == {}
      ensures this.adopting == adopting && this.planned == planned
    {
      this.adopting, this.planned := adopting, planned;
      destination, installed, created := Original, {}, {};
      backup := if adopting then Some(Replacement) else None;
      backupNamed := adopting;
      replaced, ambiguous, committed, finalized, authority := false, false, false, false, false;
      cleanup := false;
    }

    // --- File system and checks ---------------------------------------------------

    /** A read, sync or proof without modelled effect. */
    method Check() returns (r: Run<bool>)
    {
      var passes: bool, crash: bool := *, *;
      return if crash then Crashed else Finished(passes);
    }

    /** RENAME_EXCHANGE of the two paths. */
    method Exchange() returns (r: Run<bool>)
      requires DiskOk() && backup.Some?
      modifies this`destination, this`backup
      ensures DiskOk() && backup.Some?
      ensures destination == old(destination) || Some(destination) == old(backup)
      ensures r == Finished(true) ==> Some(destination) == old(backup)
    {
      var swaps: bool, reported: bool, crash: bool := *, *, *;
      if swaps {
        destination, backup := backup.value, Some(destination);
      }
      return if crash then Crashed else Finished(swaps && reported);
    }

    /** `replacementPairMatchesOnDisk` */
    method PairMatches(swapped: bool) returns (r: Run<bool>)
      ensures r == Finished(true) ==>
                && backupNamed
                && destination == (if swapped then Replacement else Original)
                && backup == Some(if swapped then Original else Replacement)
    {
      var passes :- Check();
      return Finished(passes && backupNamed && destination == (if swapped then Replacement else Original) &&
                      backup == Some(if swapped then Original else Replacement));
    }

    /** `verifyDestinations` */
    method VerifyDestinations() returns (r: Run<bool>)
      ensures r == Finished(true) && replaced ==> destination == Replacement && backup == Some(Original)
    {
      if replaced {
        r := PairMatches(true);
      } else {
        r := Check();
      }
    }

    // --- Exchange -------------------------------------------------------------------

    /** The exchange itself and the look at both paths after it. */
    method TryExchange() returns (r: Run<Exchanged>)
      requires Valid() && !replaced && backup.Some?
      modifies this`destination, this`backup, this`replaced, this`ambiguous
      ensures DiskOk()
      ensures r.Finished? ==> Valid()
      ensures r.Finished? && (r.value.Swapped? || r.value.SwappedWithError?) ==>
                replaced && destination == Replacement && ambiguous == old(ambiguous)
      ensures r.Finished? && r.value.NotSwapped? ==> !replaced && ambiguous == old(ambiguous)
    {
      var exchanged :- Exchange();
      if exchanged {
        replaced := true;
        var pair :- PairMatches(true);
        if !pair {
          ambiguous := true;
          var _ :- Check();
          return Finished(Unclear);
        }
        return Finished(Swapped);
      }
      var oldPair :- PairMatches(false);
      var newPair :- PairMatches(true);
      if oldPair {
        return Finished(NotSwapped);
      }
      replaced := true;
      if !newPair {
        ambiguous := true;
        var _ :- Check();
        return Finished(Unclear);
      }
      return Finished(SwappedWithError);
    }

    /** `exchangeReplacement` */
    method ExchangeReplacement() returns (r: Run<bool>)
      requires Valid() && !committed
      modifies this
      ensures DiskOk() && !committed
      ensures r.Finished? ==> Valid()
      ensures r == Finished(true) ==> replaced && destination == Replacement
      ensures r == Finished(true) ==> installed == old(installed) && created == old(created)
    {
      if replaced || !backupNamed || backup.None? {
        return Finished(false);
      }
      var ready :- VerifyDestinations();
      if !ready {
        return Finished(false);
      }
      var exchanged :- TryExchange();
      if exchanged.NotSwapped? || exchanged.Unclear? {
        return Finished(false);
      }
      var synced :- Check();
      if !synced {
        var _ :- Rollback();
        return Finished(false);
      }
      var verified :- VerifyDestinations();
      if !verified || exchanged.SwappedWithError? {
        var _ :- Rollback();
        return Finished(false);
      }
      return Finished(true);
    }

    // --- Rollback -------------------------------------------------------------------

    /** `rollbackReplacement` */
    method RollbackReplacement() returns (r: Run<bool>)
      requires Valid() && replaced
      modifies this`destination, this`backup, this`replaced, this`ambiguous, this`authority
      ensures DiskOk()
      ensures r.Finished? ==> Valid()
      ensures r == Finished(true) ==> !replaced && destination == Original
    {
      if ambiguous {
        return Finished(false);
      }
      var pair :- PairMatches(true);
      if !pair || !authority {
        return Finished(false);
      }
      var proof :- Check();
      if !proof {
        return Finished(false);
      }
      pair :- PairMatches(true);
      if !pair {
        return Finished(false);
      }
      var exchanged :- Exchange();
      if exchanged {
        ambiguous := true;
        var synced :- Check();
        pair :- PairMatches(false);
        if !pair || !synced {
          return Finished(false);
        }
        ambiguous, replaced, authority := false, false, false;
        return Finished(true);
      }
      var oldPair :- PairMatches(false);
      var newPair :- PairMatches(true);
      if newPair {
        return Finished(false);
      }
      ambiguous := true;
      var _ :- Check();
      return Finished(false);
    }

    /** `rollbackCreatedSidecars`: remove what this transaction recorded as created. */
    method RollbackCreated() returns (r: Run<bool>)
      requires created <= installed
      modifies this`installed, this`created
      ensures created <= installed <= old(installed) && created <= old(created)
      ensures r == Finished(true) ==> forall path :: path in planned ==> path !in created
    {
      var ok := true;
      for i := |planned| downto 0
        invariant created <= installed <= old(installed) && created <= old(created)
        invariant ok ==> forall k :: i <= k < |planned| ==> planned[k] !in created
      {
        if planned[i] in created {
          var same :- Check();
          var removable :- Check();
          if same && removable {
            installed := installed - {planned[i]};
            created := created - {planned[i]};
          } else {
            ok := false;
          }
        }
      }
      var synced :- Check();
      return Finished(ok && synced);
    }

    method Rollback() returns (r: Run<bool>)
      requires Valid()
      modifies this
      ensures DiskOk() && (!old(committed) ==> !committed)
      ensures r.Finished? ==> Valid()
      ensures cleanup == old(cleanup)
    {
      var undone :- RollbackCreated();
      if replaced {
        var restored :- RollbackReplacement();
        undone := undone && restored;
      }
      if undone {
        committed := false;
      }
      return Finished(undone);
    }

    // --- Commit -----------------------------------------------------------------------

    /** `installNoReplace`: an existing file is never replaced, and a link may stay unrecorded. */
    method InstallNoReplace(path: string) returns (r: Run<bool>)
      requires created <= installed
      modifies this`installed, this`created
      ensures created <= installed && old(installed) <= installed <= old(installed) + {path}
      ensures r == Finished(true) ==> path in installed && path in created
    {
      var absent :- Check();
      if !absent || path in installed || path in created {
        return Finished(false);
      }
      var links: bool, reported: bool := *, *;
      reported := reported && links;
      if links {
        installed := installed + {path};
      }
      var seen :- Check();
      if seen && links {
        created := created + {path};
      } else if reported {
        return Finished(false);
      }
      if !reported {
        return Finished(false);
      }
      r := Check();
    }

    /** The sidecars of the plan, in order; a failure rolls everything back. */
    method InstallPlanned() returns (r: Run<bool>)
      requires Valid() && !committed
      requires adopting ==> replaced && destination == Replacement
      modifies this
      ensures DiskOk() && !committed
      ensures r.Finished? ==> Valid()
      ensures r == Finished(true) ==> NewForm()
    {
      for i := 0 to |planned|
        invariant Valid() && !committed
        invariant adopting ==> replaced && destination == Replacement
        invariant forall k :: 0 <= k < i ==> planned[k] in installed
      {
        var done :- InstallNoReplace(planned[i]);
        if !done {
          var _ :- Rollback();
          return Finished(false);
        }
      }
      var synced :- Check();
      if !synced {
        var _ :- Rollback();
        return Finished(false);
      }
      var verified :- VerifyDestinations();
      if !verified {
        var _ :- Rollback();
        return Finished(false);
      }
      return Finished(true);
    }

    /** `CommitContext` of the sidecars */
    method Commit() returns (r: Run<bool>)
      requires Valid()
      modifies this
      ensures DiskOk()
      ensures r.Finished? ==> Valid()
      ensures r == Finished(true) ==> committed && NewForm()
      ensures r != Finished(true) && !old(committed) ==> !committed
      ensures old(committed) ==> r == Finished(false) && unchanged(this)
    {
      if committed {
        return Finished(false);
      }
      var ready :- VerifyDestinations();
      if !ready || (adopting && (!backupNamed || replaced)) {
        return Finished(false);
      }
      if adopting {
        var proof :- Check();
        if !proof {
          return Finished(false);
        }
        authority := true;
        var exchanged :- ExchangeReplacement();
        if !exchanged {
          return Finished(false);
        }
      }
      var placed :- InstallPlanned();
      if !placed {
        return Finished(false);
      }
      if adopting {
        var stillLive :- Check();
        if !stillLive {
          var _ :- RollbackCreated();
          return Finished(false);
        }
      }
      committed := true;
      return Finished(true);
    }

    // --- Finalize and abort --------------------------------------------------------------

    method Finalize() returns (r: Run<bool>)
      requires Valid()
      modifies this`backup, this`backupNamed, this`finalized, this`cleanup
      ensures DiskOk()
      ensures r.Finished? ==> Valid()
      ensures cleanup && !old(cleanup) ==> committed
    {
      if finalized || !replaced {
        return Finished(true);
      }
      if !committed {
        return Finished(false);
      }
      var pair :- PairMatches(true);
      if !pair {
        return Finished(false);
      }
      var removable :- Check();
      if !removable {
        return Finished(false);
      }
      backup, cleanup := None, true;
      var alive :- Check();
      backupNamed, finalized := false, true;
      r := Check();
    }

    method Abort() returns (r: Run<bool>)
      requires Valid()
      modifies this`backup, this`backupNamed
      ensures DiskOk()
      ensures r.Finished? ==> Valid()
    {
      if backupNamed && !replaced {
        var same :- Check();
        if same && backup == Some(Replacement) {
          backup := None;
          var _ :- Check();
        }
        backupNamed := false;
      }
      return Finished(true);
    }

    /**
     * Any sequence of commit, rollback, finalize and abort, up to a crash: the original
     * inode is kept until a committed Finalize, and the flags are true of the disk.
     */
    method Drive(steps: seq<Step>) returns (crashed: bool)
      requires Valid()
      modifies this
      ensures OriginalKept()
      ensures !crashed ==> FlagsTrue()
    {
      for i := 0 to |steps|
        invariant Valid()
      {
        var r;
        match steps[i] {
          case CommitStep => r := Commit();
          case RollbackStep => r := Rollback();
          case FinalizeStep => r := Finalize();
          case AbortStep => r := Abort();
        }
        if r.Crashed? {
          return true;
        }
      }
      return false;
    }
  }
}
