/** One call of `downloadMissingEmailsToFolder` before its pipeline starts, core/download.go:80-114 and
    core/imap_client.go:127-133, and the log file the next call reads. */
module Downloads {
  import opened Common
  import opened Ids
  import opened Backup
  import OldmailText
  import Pipeline
  import PipelineSafety

  /** How the call goes on: it returns an error, returns nil at once, crashes on a UID that does not fit,
      or runs the pipeline for the missing messages. */
  datatype Prelude = Refused | UpToDate | Crashed | Go(missing: seq<int64>)

  /** The arguments are what the maildir, the server and the user have to say. */
  method Prepare(maildir: Result<seq<Oldmail>>, selected: bool, interrupted: bool,
                 listing: Result<seq<UidExt>>, logOpens: bool) returns (p: Prelude)
    ensures maildir.Err? || !selected || interrupted || listing.Err? ==> p == Refused
    ensures maildir.Ok? && selected && !interrupted && listing.Ok? ==>
              var missing := Determine(maildir.value, listing.value);
              && (p.UpToDate? <==> missing == Ok([]))
              && (p.Go? <==> logOpens && Fetches(Disk(maildir.value, []), listing.value))
              && (p.Go? ==> missing == Ok(p.missing))
              && (p.Crashed? <==> missing.Ok? && (forall u <- missing.value :: u > 0)
                                  && exists u <- missing.value :: u > 2147483647)
              && (p.Go? ==> forall u <- p.missing :: 1 <= u <= 2147483647)
  {
    if maildir.Err? || !selected { return Refused; }
    if interrupted { return Refused; }
    if listing.Err? { return Refused; }
    var missing := DetermineMissingUIDs(maildir.value, listing.value);
    hide Determine;
    if missing.Err? { return Refused; }
    if missing.value == [] { return UpToDate; }
    var uids := missing.value;
    for i := 0 to |uids|
      invariant forall k :: 0 <= k < i ==> uids[k] > 0
    {
      if uids[i] <= 0 {
        assert uids[i] in uids;
        return Refused;
      }
    }
    for i := 0 to |uids|
      invariant forall k :: 0 <= k < i ==> 0 < uids[k] <= MAX_INT32
    {
      if uids[i] > MAX_INT32 {
        assert uids[i] in uids;
        return Crashed;
      }
    }
    p := if logOpens then Go(uids) else Refused;
  }

  lemma EndsLineAfter(s: string, t: string)
    requires OldmailText.EndsLine(s) && OldmailText.EndsLine(t)
    ensures OldmailText.EndsLine(s + t)
  {
    if t == "" {
      assert s + t == s;
    }
  }

  lemma {:induction false} PrintedEndsLine(oms: seq<Oldmail>)
    ensures OldmailText.EndsLine(OldmailText.PrintAll(oms))
  {
    if oms == [] {
    } else {
      PrintedEndsLine(oms[1..]);
      EndsLineAfter(OldmailText.PrintLine(oms[0]), OldmailText.PrintAll(oms[1..]));
    }
  }

  /** The log file after a run: what was there, followed by one line for each new record, in order. The next
      run reads from it exactly the log this project reasons about. */
  lemma LogFileFollows(content: string, disk: Disk, added: seq<Oldmail>)
    requires OldmailText.Read(content) == Ok(disk.log) && OldmailText.EndsLine(content)
    ensures OldmailText.Read(content + OldmailText.PrintAll(added)) == Ok(disk.log + added)
    ensures OldmailText.EndsLine(content + OldmailText.PrintAll(added))
  {
    hide OldmailText.Read, OldmailText.PrintAll;
    OldmailText.RoundTrip(added);
    OldmailText.AppendLaw(content, OldmailText.PrintAll(added));
    PrintedEndsLine(added);
    EndsLineAfter(content, OldmailText.PrintAll(added));
  }

  // ---------- the log file over any history ----------

  /** The records a step of the history adds to the log. */
  ghost function Added(w: Site, e: Event): seq<Oldmail>
    requires Possible(w, e) && w.disk.log <= Next(w, e).disk.log
  {
    Next(w, e).disk.log[|w.disk.log|..]
  }

  lemma LogOnlyGrows(w: Site, e: Event)
    requires Possible(w, e)
    ensures w.disk.log <= Next(w, e).disk.log
    ensures w.disk.log + Added(w, e) == Next(w, e).disk.log
  {
    hide Fetches, Determine, Pipeline.Feasible, Pipeline.After, Pipeline.Init, PipelineSafety.Stored, Complete, Answers;
  }

  /** The text of the log file, to which every run appends the lines of its records. */
  ghost function FileAfterwards(content: string, w: Site, history: seq<Event>): string
    requires Happens(w, history)
    decreases |history|
  {
    if history == [] then content else
      LogOnlyGrows(w, history[0]);
      FileAfterwards(content + OldmailText.PrintAll(Added(w, history[0])), Next(w, history[0]), history[1..])
  }

  /** Over any history of runs, interrupts, failures and crashes, the file reads as the log, and the next run can
      append to it. */
  lemma {:induction false} LogFileStaysTrue(content: string, w: Site, history: seq<Event>)
    requires Happens(w, history)
    requires OldmailText.Read(content) == Ok(w.disk.log) && OldmailText.EndsLine(content)
    ensures OldmailText.Read(FileAfterwards(content, w, history)) == Ok(Afterwards(w, history).disk.log)
    ensures OldmailText.EndsLine(FileAfterwards(content, w, history))
    decreases |history|
  {
    hide OldmailText.Read, OldmailText.PrintAll, Possible, Next;
    if history == [] {
    } else {
      LogOnlyGrows(w, history[0]);
      LogFileFollows(content, w.disk, Added(w, history[0]));
      LogFileStaysTrue(content + OldmailText.PrintAll(Added(w, history[0])), Next(w, history[0]), history[1..]);
    }
  }
}
