/** The agent's entry point, `main` (collector.py:129-154): it names a
    folder after the machine and the user, makes sure that folder exists on
    the network share, and writes the report into a file named after the
    moment of the run. Every failure is swallowed; the share is only ever
    changed at that folder and that file. */
module Agent {
  import opened Options
  import opened Text
  import opened Tree
  import opened Namer
  import opened Report

  /** How a run ended. The program reports none of this; the outcome only
      makes visible which branch a run took. */
  datatype Outcome =
    | Saved(folder: string, file: string)
      /** `socket.gethostname` or `os.getlogin` raised. */
    | NoIdentity(trace: string)
      /** A file bears the folder's name: `makedirs(..., exist_ok=True)`
          raises `FileExistsError`. */
    | FolderBlocked
      /** A directory bears the file's name: `open(..., "w")` raises. */
    | FileBlocked

  datatype Effect = Effect(share: map<string, Node>, outcome: Outcome)

  /** The share after `os.makedirs(folder, exist_ok=True)`: the folder is
      made when absent and kept when it is a directory; None when a file
      bears its name. */
  function MadeFolder(share: map<string, Node>, folder: string): (r: Option<map<string, Node>>)
    ensures r.Some? ==> IsDirAt(r.value, [folder])
  {
    if IsFileAt(share, [folder]) then None
    else Some(if folder in share then share else share[folder := Dir(map[])])
  }

  /** The share after `open(folder/name, "w")` and a write of `content`;
      None when a directory bears the file's name. */
  function Written(share: map<string, Node>, folder: string, name: string, content: string): (r: Option<map<string, Node>>)
    requires IsDirAt(share, [folder])
    ensures r.None? <==> IsDirAt(share, [folder, name])
    ensures r.Some? ==> NodeAt(r.value, [folder, name]) == Some(File(content))
  {
    assert Parent([folder, name]) == [folder];
    if IsDirAt(share, [folder, name]) then None
    else
      PutThenGet(share, [folder, name], File(content));
      Some(Put(share, [folder, name], File(content)))
  }

  /** The share after a run that found the identity `host`/`user` and the
      clock at `now`, and whose report was `report`. The file receives the
      report with Windows line ends (text mode on Windows). */
  function RunEffect(share: map<string, Node>, host: Probe<string>, user: Probe<string>,
                     now: Timestamp, report: string): (r: Effect)
    requires ValidTimestamp(now)
    ensures r.outcome.NoIdentity? <==> host.Raised? || user.Raised?
    ensures r.outcome.NoIdentity? || r.outcome.FolderBlocked? ==> r.share == share
  {
    if host.Raised? then Effect(share, NoIdentity(host.trace))
    else if user.Raised? then Effect(share, NoIdentity(user.trace))
    else
      var folder := FolderName(host.value, user.value);
      var made := MadeFolder(share, folder);
      if made.None? then Effect(share, FolderBlocked)
      else
        var name := FileName(now);
        var written := Written(made.value, folder, name, Crlf(report));
        if written.None? then Effect(made.value, FileBlocked)
        else Effect(written.value, Saved(folder, name))
  }

  /** A run saves exactly when both identity calls answered, no file bears
      the folder's name and no directory bears the file's; the file then
      holds the report, which reads back unchanged when it has no carriage
      return of its own. */
  lemma RunSaves(share: map<string, Node>, host: Probe<string>, user: Probe<string>,
                 now: Timestamp, report: string)
    requires ValidTimestamp(now)
    ensures var r := RunEffect(share, host, user, now, report);
      && (r.outcome.Saved? <==>
           && host.Got? && user.Got?
           && !IsFileAt(share, [FolderName(host.value, user.value)])
           && !IsDirAt(share, [FolderName(host.value, user.value), FileName(now)]))
      && (r.outcome.Saved? ==>
           && r.outcome.folder == FolderName(host.value, user.value)
           && r.outcome.file == FileName(now)
           && NodeAt(r.share, [r.outcome.folder, r.outcome.file]) == Some(File(Crlf(report)))
           && ('\r' !in report ==> ReadText(NodeAt(r.share, [r.outcome.folder, r.outcome.file]).value.content) == report))
  {
    if host.Got? && user.Got? {
      var folder := FolderName(host.value, user.value);
      var name := FileName(now);
      if !IsFileAt(share, [folder]) {
        var made := if folder in share then share else share[folder := Dir(map[])];
        assert IsDirAt(made, [folder]);
        if folder !in share {
          assert NodeAt(made, [folder, name]) == NodeAt(map[], [name]) == None;
        }
        if !IsDirAt(made, [folder, name]) {
          assert Parent([folder, name]) == [folder];
          PutThenGet(made, [folder, name], File(Crlf(report)));
          if '\r' !in report {
            CrlfReadBack(report);
          }
        }
      }
    }
  }

  /** A run that did not save leaves the share as it was: the folder is
      only made on the way to a successful write. */
  lemma RunFailsCleanly(share: map<string, Node>, host: Probe<string>, user: Probe<string>,
                        now: Timestamp, report: string)
    requires ValidTimestamp(now)
    ensures var r := RunEffect(share, host, user, now, report);
      !r.outcome.Saved? ==> r.share == share
  {
    if host.Got? && user.Got? {
      var folder := FolderName(host.value, user.value);
      if !IsFileAt(share, [folder]) && folder !in share {
        var made := share[folder := Dir(map[])];
        assert NodeAt(made, [folder, FileName(now)]) == NodeAt(map[], [FileName(now)]) == None;
      }
    }
  }

  /** Whatever a run does, every path of the share other than the folder
      and the file it names reads as before: other machines' folders and
      the folder's other files are untouched. */
  lemma RunFrame(share: map<string, Node>, host: Probe<string>, user: Probe<string>,
                 now: Timestamp, report: string, q: seq<string>)
    requires ValidTimestamp(now)
    requires host.Got? && user.Got?
    requires var p := [FolderName(host.value, user.value), FileName(now)]; !(q <= p) && !(p <= q)
    ensures NodeAt(RunEffect(share, host, user, now, report).share, q) == NodeAt(share, q)
  {
    var folder := FolderName(host.value, user.value);
    var name := FileName(now);
    var p := [folder, name];
    assert q != [] && !(q <= [folder]);
    if !IsFileAt(share, [folder]) {
      var made := if folder in share then share else share[folder := Dir(map[])];
      assert NodeAt(made, q) == NodeAt(share, q) by {
        if folder !in share && q[0] == folder {
          assert NodeAt(share, q) == None;
          assert NodeAt(made, q) == None;
        }
      }
      if !IsDirAt(made, p) {
        assert Parent(p) == [folder];
        PutFrame(made, p, File(Crlf(report)), q);
      }
    }
  }

  /** Two saving runs of one machine at different seconds leave two
      files: the second does not disturb the first one's report. */
  lemma TwoRunsKeepBoth(share: map<string, Node>, host: string, user: string,
                        first: Timestamp, second: Timestamp, report1: string, report2: string)
    requires ValidTimestamp(first) && ValidTimestamp(second) && first != second
    requires RunEffect(share, Got(host), Got(user), first, report1).outcome.Saved?
    ensures var r1 := RunEffect(share, Got(host), Got(user), first, report1);
      var r2 := RunEffect(r1.share, Got(host), Got(user), second, report2);
      NodeAt(r2.share, [FolderName(host, user), FileName(first)]) == Some(File(Crlf(report1)))
  {
    var r1 := RunEffect(share, Got(host), Got(user), first, report1);
    var q := [FolderName(host, user), FileName(first)];
    RunSaves(share, Got(host), Got(user), first, report1);
    FileNameInjective(first, second);
    RunFrame(r1.share, Got(host), Got(user), second, report2, q);
  }

  /** The network share as the agent sees it: the entries below the
      shared directory. */
  class Share {
    var entries: map<string, Node>

    constructor(entries: map<string, Node>)
      ensures this.entries == entries
    {
      this.entries := entries;
    }

    /** `os.makedirs(folder, exist_ok=True)` on the share; false when it
        raised. */
    method MakeFolder(folder: string) returns (ok: bool)
      modifies this
      ensures ok == MadeFolder(old(entries), folder).Some?
      ensures entries == if ok then MadeFolder(old(entries), folder).value else old(entries)
    {
      if folder !in entries {
        entries := entries[folder := Dir(map[])];
      } else if entries[folder].File? {
        return false;
      }
      ok := true;
    }

    /** `open(folder/name, "w")` and a write of `content`; false when the
        open raised. */
    method WriteFile(folder: string, name: string, content: string) returns (ok: bool)
      requires IsDirAt(entries, [folder])
      modifies this
      ensures ok == Written(old(entries), folder, name, content).Some?
      ensures entries == if ok then Written(old(entries), folder, name, content).value else old(entries)
    {
      var files := entries[folder].entries;
      assert NodeAt(entries, [folder, name]) == NodeAt(files, [name]);
      if name in files && files[name].Dir? {
        return false;
      }
      assert Put(entries, [folder, name], File(content)) == entries[folder := Dir(files[name := File(content)])];
      entries := entries[folder := Dir(files[name := File(content)])];
      ok := true;
    }

    /** One run of `main` (collector.py:129-154): the identity and the
        clock are inputs, the report is collected after the folder is made
        and before the file is opened, and every failure ends the run
        without a trace. The report collected is returned beside the
        outcome. */
    method Run(host: Probe<string>, user: Probe<string>, now: Timestamp, src: Sources)
      returns (outcome: Outcome, report: string)
      requires ValidTimestamp(now) && ValidTimestamp(src.clock)
      modifies this
      ensures outcome.Saved? || outcome.FileBlocked? ==> report == ReportText(src)
      ensures Effect(entries, outcome) == RunEffect(old(entries), host, user, now, report)
    {
      if host.Raised? { return NoIdentity(host.trace), ""; }
      if user.Raised? { return NoIdentity(user.trace), ""; }
      var folder := FolderName(host.value, user.value);
      var made := MakeFolder(folder);
      if !made { return FolderBlocked, ""; }
      ghost var folderMade := entries;
      var name := FileName(now);
      report := CollectSystemInfo(src);
      var written := WriteFile(folder, name, Crlf(report));
      ghost var w := Written(folderMade, folder, name, Crlf(report));
      if !written {
        assert w.None? && entries == folderMade;
        return FileBlocked, report;
      }
      assert w.Some? && entries == w.value;
      outcome := Saved(folder, name);
    }
  }
}
