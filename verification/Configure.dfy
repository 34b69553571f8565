/**
 * The configure transaction: sidecars, policy and identity are installed in this order
 * and rolled back in reverse (host_agent_configure_transaction.go,
 * host_agent_configure_policy_transaction.go, updater_config_file.go).
 */
module Configure {
  import opened Basics
  import opened Sidecars

  /** `inspectPreparedRenameOutcome` */
  datatype RenameOutcome = NotInstalled | Installed | Uncertain

  class Configuration {
    const sidecars: Sidecars

    // The disk: is the new policy, is the new identity at its path?
    var policyNew: bool
    var identityNew: bool

    // The transaction's own fields.
    var policyPrepared: bool
    var policyCommitted: bool
    var policyKnown: bool
    var identityPrepared: bool
    var identityCommitted: bool

    /** A new identity implies a new policy, which implies the sidecars in their new form. */
    ghost predicate Ordered()
      reads this, sidecars
    {
      && (identityNew ==> policyNew)
      && (policyNew ==> sidecars.NewForm())
    }

    ghost predicate DiskOk()
      reads this, sidecars
    {
      Ordered() && sidecars.DiskOk()
    }

    ghost predicate Valid()
      reads this, sidecars
    {
      && DiskOk() && sidecars.Valid()
      && (policyNew ==> policyCommitted && sidecars.committed)
      && (identityNew ==> identityCommitted)
      && (policyCommitted ==> !policyPrepared)
    }

    constructor (adopting: bool, planned: seq<string>)
      ensures Valid() && fresh(sidecars) && !policyNew && !identityNew
    {
      sidecars := new Sidecars(adopting, planned);
      policyNew, identityNew := false, false;
      policyPrepared, policyCommitted, policyKnown := true, false, false;
      identityPrepared, identityCommitted := true, false;
    }

    method Check() returns (r: Run<bool>)
    {
      var passes: bool, crash: bool := *, *;
      return if crash then Crashed else Finished(passes);
    }

    /** Looks at both paths after a failed rename; what it can prove is true. */
    method InspectRename(took: bool) returns (r: Run<RenameOutcome>)
      ensures r == Finished(NotInstalled) ==> !took
      ensures r == Finished(Installed) ==> took
    {
      var destinationRead: bool, tempRead: bool, crash: bool := *, *, *;
      return
        if crash then Crashed
        else if destinationRead && took then Finished(Installed)
        else if tempRead && !took then Finished(NotInstalled)
        else Finished(Uncertain);
    }

    // --- Policy -------------------------------------------------------------------

    /** `preparedLocalExecutorPolicy.Commit` and `finishCommittedInstall` */
    method CommitPolicy() returns (r: Run<bool>)
      requires Valid() && sidecars.committed && sidecars.NewForm()
      modifies this`policyNew, this`policyPrepared, this`policyCommitted, this`policyKnown
      ensures DiskOk()
      ensures r.Finished? ==> Valid()
      ensures r == Finished(true) ==> policyNew && policyCommitted
    {
      if !policyPrepared || policyCommitted {
        return Finished(false);
      }
      var written :- Check();
      if !written {
        return Finished(false);
      }
      var took: bool, reported: bool := *, *;
      reported := reported && took;
      policyNew := took;
      var error := !reported;
      var known := true;
      if !reported {
        var outcome :- InspectRename(took);
        if outcome == NotInstalled {
          return Finished(false);
        }
        known := outcome == Installed;
      }
      policyCommitted, policyKnown, policyPrepared := true, known, false;
      var closed :- Check();
      var synced :- Check();
      return Finished(!error && closed && synced);
    }

    /** `preparedLocalExecutorPolicy.Rollback` */
    method RollbackPolicy() returns (r: Run<bool>)
      requires Valid() && !identityNew
      modifies this`policyNew, this`policyCommitted
      ensures DiskOk()
      ensures r.Finished? ==> Valid()
      ensures r.Finished? && !policyCommitted ==> !policyNew
    {
      if !policyCommitted {
        return Finished(true);
      }
      var same :- Check();
      if !same || !policyKnown {
        return Finished(false);
      }
      // Unlinking a created policy, or renaming the previous one over it.
      var took: bool, reported: bool := *, *;
      if took {
        policyNew := false;
      }
      var alive :- Check();
      if !reported || !took {
        return Finished(false);
      }
      policyCommitted := false;
      r := Check();
    }

    /** Undo after a failure: the policy first, the sidecars only once the policy is gone. */
    method Undo() returns (r: Run<bool>)
      requires Valid() && !identityNew
      modifies this`policyNew, this`policyCommitted, sidecars
      ensures DiskOk()
      ensures r.Finished? ==> Valid()
    {
      var undone :- RollbackPolicy();
      if !policyCommitted {
        var restored :- sidecars.Rollback();
        undone := undone && restored;
      }
      return Finished(undone);
    }

    // --- Identity -------------------------------------------------------------------

    /** `PreparedUpdaterConfig.Commit` and `finishCommittedInstall` */
    method CommitIdentity() returns (r: Run<bool>)
      requires Valid() && policyNew
      modifies this`identityNew, this`identityPrepared, this`identityCommitted
      ensures DiskOk()
      ensures r.Finished? ==> Valid()
      ensures r == Finished(true) ==> identityNew && identityCommitted
    {
      if !identityPrepared || identityCommitted {
        return Finished(false);
      }
      var written :- Check();
      if !written {
        return Finished(false);
      }
      var took: bool, reported: bool := *, *;
      reported := reported && took;
      identityNew := identityNew || took;
      if !reported {
        var outcome :- InspectRename(took);
        if outcome == NotInstalled {
          return Finished(false);
        }
      }
      identityCommitted, identityPrepared := true, false;
      var closed :- Check();
      var synced :- Check();
      return Finished(reported && closed && synced);
    }

    // --- The transaction ----------------------------------------------------------------

    /** `PreparedHostAgentConfiguration.CommitContext` */
    method Commit() returns (r: Run<bool>)
      requires Valid()
      modifies this, sidecars
      ensures DiskOk()
      ensures r.Finished? ==> Valid()
      ensures r == Finished(true) ==> identityNew && policyNew && sidecars.NewForm()
    {
      var layout :- Check();
      if !layout {
        return Finished(false);
      }
      var sidecarsIn :- CommitSidecars();
      if !sidecarsIn {
        return Finished(false);
      }
      var policyIn :- CommitPolicy();
      if !policyIn {
        var _ :- Undo();
        return Finished(false);
      }
      layout :- Check();
      if !layout {
        var _ :- Undo();
        return Finished(false);
      }
      var identityIn :- CommitIdentity();
      if !identityIn {
        if !identityCommitted {
          var _ :- Undo();
        }
        return Finished(false);
      }
      r := sidecars.Finalize();
    }

    /** `sidecars.CommitContext` inside the transaction; it refuses while a policy is installed. */
    method CommitSidecars() returns (r: Run<bool>)
      requires Valid()
      modifies sidecars
      ensures DiskOk()
      ensures r.Finished? ==> Valid()
      ensures r == Finished(true) ==> sidecars.committed && sidecars.NewForm() && !policyNew
    {
      r := sidecars.Commit();
    }

    /** Any number of attempts, up to a crash. */
    method Drive(attempts: nat)
      requires Valid()
      modifies this, sidecars
      ensures Ordered() && sidecars.OriginalKept()
    {
      for i := 0 to attempts
        invariant Valid()
      {
        var r := Commit();
        if r.Crashed? {
          return;
        }
        r := sidecars.Abort();
        if r.Crashed? {
          return;
        }
      }
    }
  }
}
