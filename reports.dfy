/** The report fetcher (`test_results`): for each device of a finished build
    it downloads the report of the device's first session into
    `<output dir>/test-results/<device>.xml`, then appends one
    `AC_TEST_RESULT_PATH=` line to the environment file. */
module Reports {
  import opened Common

  datatype Session = Session(id: Option<string>)

  /** One entry of the status reply's `devices` list. A device whose
      `sessions` field is missing is the same as one with no sessions: both
      make `device[:sessions][0][:id]` raise. */
  datatype Device = Device(device: Option<string>, sessions: seq<Session>)

  const ResultKey: string := "AC_TEST_RESULT_PATH="

  /** `"#{ENV['AC_OUTPUT_DIR']}/test-results"`. */
  function ReportFolder(outputDir: Option<string>): (r: string)
    ensures |r| >= |"/test-results"| && r[|r| - |"/test-results"|..] == "/test-results"
  {
    Interp(outputDir) + "/test-results"
  }

  /** The request path of a device's report: the build-status endpoint, the
      build id, and the id of the device's first session. */
  function ReportRequest(buildId: Option<string>, d: Device): (r: string)
    requires |d.sessions| > 0
    ensures |r| >= |BuildStatusEndpoint| && r[..|BuildStatusEndpoint|] == BuildStatusEndpoint
  {
    BuildStatusEndpoint + Interp(buildId) + "/sessions/" + Interp(d.sessions[0].id) + "/report"
  }

  /** `File.join(folder, "#{device[:device]}.xml")`. */
  function ReportFile(folder: string, d: Device): (r: string)
    ensures |r| > |folder| && r[..|folder| + 1] == folder + "/"
  {
    folder + "/" + Interp(d.device) + ".xml"
  }

  /** The line appended to the environment file. */
  function ResultLine(folder: string): (r: string)
    ensures |r| == |ResultKey| + |folder| && r[..|ResultKey|] == ResultKey && r[|ResultKey|..] == folder
  {
    ResultKey + folder
  }

  /** Every device in `ds` has at least one session to fetch a report for. */
  predicate Reportable(ds: seq<Device>)
  {
    forall j :: 0 <= j < |ds| ==> |ds[j].sessions| > 0
  }

  /** How many devices are processed before one without sessions stops the
      loop: the position of the first such device, or all of them. */
  function FirstUnreportable(ds: seq<Device>): (k: nat)
    ensures k <= |ds| && Reportable(ds[..k])
    ensures k < |ds| ==> |ds[k].sessions| == 0
  {
    if ds == [] then 0
    else if |ds[0].sessions| == 0 then 0
    else
      var k := FirstUnreportable(ds[1..]);
      assert ds[..k + 1] == [ds[0]] + ds[1..][..k];
      k + 1
  }

  /** The report files after writing those of `ds` one after another into
      `files`: each write replaces any earlier file of the same name. */
  function Written(files: map<string, string>, folder: string, buildId: Option<string>,
                   ds: seq<Device>, report: string -> string): (r: map<string, string>)
    requires Reportable(ds)
  {
    if ds == [] then files
    else
      var last := ds[|ds| - 1];
      Written(files, folder, buildId, ds[..|ds| - 1], report)[ReportFile(folder, last) := report(ReportRequest(buildId, last))]
  }

  /** Exactly the earlier files and one file per device exist afterwards. */
  lemma {:induction false} WrittenKeys(files: map<string, string>, folder: string, buildId: Option<string>,
                                       ds: seq<Device>, report: string -> string)
    requires Reportable(ds)
    ensures Written(files, folder, buildId, ds, report).Keys
              == files.Keys + set d | d in ds :: ReportFile(folder, d)
  {
    if ds != [] {
      var init := ds[..|ds| - 1];
      WrittenKeys(files, folder, buildId, init, report);
      assert ds == init + [ds[|ds| - 1]];
      assert (set d | d in ds :: ReportFile(folder, d))
               == (set d | d in init :: ReportFile(folder, d)) + {ReportFile(folder, ds[|ds| - 1])};
    }
  }

  /** The file of device `j` holds that device's report unless a later device
      has a file of the same name (the last write wins). */
  lemma {:induction false} LastWriteWins(files: map<string, string>, folder: string, buildId: Option<string>,
                                         ds: seq<Device>, report: string -> string, j: nat)
    requires Reportable(ds) && j < |ds|
    requires forall i :: j < i < |ds| ==> ReportFile(folder, ds[i]) != ReportFile(folder, ds[j])
    ensures ReportFile(folder, ds[j]) in Written(files, folder, buildId, ds, report)
    ensures Written(files, folder, buildId, ds, report)[ReportFile(folder, ds[j])]
              == report(ReportRequest(buildId, ds[j]))
  {
    var init := ds[..|ds| - 1];
    if j < |ds| - 1 {
      assert init[j] == ds[j];
      LastWriteWins(files, folder, buildId, init, report, j);
    }
  }

  /** Files that are not a report file of any device keep their contents. */
  lemma {:induction false} WrittenLeavesOthers(files: map<string, string>, folder: string, buildId: Option<string>,
                                               ds: seq<Device>, report: string -> string, name: string)
    requires Reportable(ds)
    requires forall i :: 0 <= i < |ds| ==> ReportFile(folder, ds[i]) != name
    ensures name in Written(files, folder, buildId, ds, report) <==> name in files
    ensures name in files ==> Written(files, folder, buildId, ds, report)[name] == files[name]
  {
    if ds != [] {
      WrittenLeavesOthers(files, folder, buildId, ds[..|ds| - 1], report, name);
    }
  }

  /** How a call of `test_results` ended: normally, or by the exception a
      device without sessions raises, or the environment file cannot be
      opened: `File.open` raises on a nil path and on the empty path. */
  datatype Fetch = Fetched | MissingSession(index: nat) | NoEnvFile

  /** The environment-file path names a file `File.open(path, 'a')` can open. */
  predicate EnvFileOpens(envPath: Option<string>)
  {
    envPath.Some? && envPath.value != ""
  }

  /** The part of the file system the runner touches: report files by path,
      the directories that exist, and the lines of the append-only
      environment file named by `AC_ENV_FILE_PATH`. */
  datatype Disk = Disk(files: map<string, string>, dirs: set<string>, envFile: seq<string>)

  datatype FetchResult = FetchResult(disk: Disk, outcome: Fetch)

  /** What `test_results` does to the disk. The report folder exists
      afterwards; devices are processed in order until one without sessions
      raises; the result line is appended exactly once, and only when every
      device was processed and the environment-file path is set and not
      empty. */
  function FetchReports(disk: Disk, buildId: Option<string>, devices: seq<Device>,
                        outputDir: Option<string>, envPath: Option<string>,
                        report: string -> string): (r: FetchResult)
    ensures r.disk.dirs == disk.dirs + {ReportFolder(outputDir)}
    ensures r.outcome.Fetched? <==> Reportable(devices) && envPath.Some? && envPath.value != ""
    ensures r.outcome.MissingSession? <==> !Reportable(devices)
    ensures r.outcome.MissingSession? ==> var k := r.outcome.index;
              k < |devices| && |devices[k].sessions| == 0 && Reportable(devices[..k])
    ensures r.outcome.Fetched? ==> r.disk.envFile == disk.envFile + [ResultKey + ReportFolder(outputDir)]
    ensures !r.outcome.Fetched? ==> r.disk.envFile == disk.envFile
    ensures var k := FirstUnreportable(devices);
              r.disk.files == Written(disk.files, ReportFolder(outputDir), buildId, devices[..k], report)
  {
    var folder := ReportFolder(outputDir);
    var k := FirstUnreportable(devices);
    assert k == |devices| ==> devices[..k] == devices;
    var files := Written(disk.files, folder, buildId, devices[..k], report);
    var dirs := disk.dirs + {folder};
    if k < |devices| then FetchResult(Disk(files, dirs, disk.envFile), MissingSession(k))
    else if !EnvFileOpens(envPath) then FetchResult(Disk(files, dirs, disk.envFile), NoEnvFile)
    else FetchResult(Disk(files, dirs, disk.envFile + [ResultLine(folder)]), Fetched)
  }

  /** The report files and the environment file, updated in place. */
  class Workspace {
    var files: map<string, string>
    var dirs: set<string>
    var envFile: seq<string>

    /** The current contents, as a value. */
    function State(): Disk
      reads this
    {
      Disk(files, dirs, envFile)
    }

    constructor (disk: Disk)
      ensures State() == disk
    {
      files, dirs, envFile := disk.files, disk.dirs, disk.envFile;
    }

    /** `test_results`: create the report folder if needed, write one report
        per device (the report oracle `report` maps a request path to the
        body it returns), then append the result line. */
    method TestResults(buildId: Option<string>, devices: seq<Device>, outputDir: Option<string>,
                       envPath: Option<string>, report: string -> string) returns (r: Fetch)
      modifies this
      ensures var f := FetchReports(old(State()), buildId, devices, outputDir, envPath, report);
              State() == f.disk && r == f.outcome
    {
      var folder := ReportFolder(outputDir);
      if folder !in dirs {
        dirs := dirs + {folder};
      }
      var k := WriteReports(folder, buildId, devices, report);
      if k < |devices| {
        return MissingSession(k);
      }
      if !EnvFileOpens(envPath) {
        return NoEnvFile;
      }
      envFile := envFile + [ResultLine(folder)];
      r := Fetched;
    }

    /** The loop of `test_results`: the report of each device in turn, until
        a device without sessions; `k` is the number of devices written. */
    method WriteReports(folder: string, buildId: Option<string>, devices: seq<Device>,
                        report: string -> string) returns (k: nat)
      modifies this`files
      ensures k == FirstUnreportable(devices)
      ensures files == Written(old(files), folder, buildId, devices[..k], report)
    {
      k := 0;
      while k < |devices|
        invariant 0 <= k <= |devices|
        invariant Reportable(devices[..k])
        invariant files == Written(old(files), folder, buildId, devices[..k], report)
      {
        var d := devices[k];
        if |d.sessions| == 0 {
          return;
        }
        var body := report(ReportRequest(buildId, d));
        assert devices[..k + 1][..k] == devices[..k];
        files := files[ReportFile(folder, d) := body];
        k := k + 1;
      }
      assert devices[..k] == devices;
    }
  }
}
