/** `setupDrive(token)` of src/setupDrive.js: reuse the Drive folders
    recorded on disk when they belong to the same account, otherwise
    create the four project folders, nest three of them in the root folder
    and record the new setup. The disk, Drive and the log are collaborators:
    their answers are parameters and the requests are returned as a trace. */
module SetupDrive {
  import opened Common

  /** The folder titles, in creation order: the project's root folder,
      then one folder per kind of data file. */
  const FolderTitles: seq<string> :=
    ["Santoso Solar Monitoring Project", "Derived Values", "Measurements", "Solcast Data"]

  /** Whether the stored record can be reused: it was read and parsed, and
      it was made with the same account token. */
  predicate CacheHit(stored: Option<Setup>, token: string) {
    stored.Some? && stored.value.token == token
  }

  /** The record a fresh setup builds from the folder ids, taken by
      position as `const [ root, derived, measurements, solcast ] = folders`
      takes them, and the token. */
  function FreshSetup(folders: seq<string>, token: string): Setup
    requires |folders| == 4
  {
    Setup(folders[0], folders[1], folders[2], folders[3], token)
  }

  /** `stored` is what reading and parsing config/drive.json gave (`None`
      when either failed). `created[i]` is the id Drive answers to the
      request to create a folder titled `FolderTitles[i]`; `Promise.all`
      keeps the answers in request order. `saveError` is the error writing
      the new record raised, `None` when the write succeeded. */
  method SetupDrive(token: string, stored: Option<Setup>, created: seq<string>, saveError: Option<string>)
    returns (result: Result<Setup>, calls: seq<Call>)
    requires |created| == 4
    ensures CacheHit(stored, token) ==> result == Ok(stored.value) && calls == [ReadSetup]
    ensures !CacheHit(stored, token) ==>
      // the id answered for each title is bound to that title's role
      var setup := Setup(created[0], created[1], created[2], created[3], token);
      && calls == [ReadSetup, Log(Info),
                   CreateFolder("Santoso Solar Monitoring Project"), CreateFolder("Derived Values"),
                   CreateFolder("Measurements"), CreateFolder("Solcast Data"),
                   MoveFile(created[1], created[0]), MoveFile(created[2], created[0]),
                   MoveFile(created[3], created[0]), SaveSetup(setup),
                   Log(if saveError.None? then Info else Error)]
      && (saveError.None? ==> result == Ok(setup))
      && (saveError.Some? ==> result == Err(saveError.value))
    // the setup returned is reused by the next run for the same account,
    // and the one saved by it and by no run for another account
    ensures result.Ok? ==> CacheHit(Some(result.value), token)
    ensures forall saved, other :: SaveSetup(saved) in calls ==> (CacheHit(Some(saved), other) <==> other == token)
  {
    calls := [ReadSetup];
    if CacheHit(stored, token) {
      // Previous valid setup with the same Google account.
      return Ok(stored.value), calls;
    }
    calls := calls + [Log(Info)];
    calls := calls + seq(4, i requires 0 <= i < 4 => CreateFolder(FolderTitles[i]));
    var folders := created;
    var setup := FreshSetup(folders, token);
    calls := calls + seq(3, i requires 0 <= i < 3 => MoveFile(folders[1..][i], setup.root));
    calls := calls + [SaveSetup(setup)];
    if saveError.None? {
      calls := calls + [Log(Info)];
      result := Ok(setup);
    } else {
      // The error is logged and rethrown.
      calls := calls + [Log(Error)];
      result := Err(saveError.value);
    }
  }
}
