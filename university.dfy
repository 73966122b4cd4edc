// Setting up and removing universities (university/initialization.ts).
// Only a super admin may do either. A new university gets its record
// under `universities`, a `_metadata` marker in each of its eleven
// collections and a default settings document, all in one batch.
// Deleting removes only the record.
module UniversitySetup {
  import opened Wrappers
  import opened Types
  import opened Text
  import opened Order
  import opened Store
  import opened Auth
  import opened Database

  /** The collections a new university starts with, in the order they are set up. */
  const UniversityCollections: seq<string> := [
    "users", "mentorships", "meetings", "messages", "announcements", "progress_reports",
    "events", "resources", "checklists", "newsletters", "notifications"]

  /** The fields a caller sends; `None` is a field left out. */
  datatype UniversityInput = UniversityInput(
    state: Option<string>,
    city: Option<string>,
    campus: Option<string>,
    universityName: Option<string>)

  predicate Complete(input: UniversityInput)
  {
    Truthy(input.state) && Truthy(input.city) && Truthy(input.campus) && Truthy(input.universityName)
  }

  /** initializeUniversity's checks: a super admin, all four fields, and no record under the path yet. */
  function CheckInitialize(auth: Option<Token>, input: UniversityInput, universities: map<string, University>)
    : (r: Result<string>)
    ensures VerifySuperAdmin(auth).Err? ==> r == Err(VerifySuperAdmin(auth).error)
    ensures VerifySuperAdmin(auth).Ok? && !Complete(input) ==> r == Err(InvalidArgument)
    ensures r.Ok? <==> (VerifySuperAdmin(auth).Ok? && Complete(input) &&
      UniversityPath(input.state.value, input.city.value, input.campus.value) !in universities)
    ensures VerifySuperAdmin(auth).Ok? && Complete(input) && r.Err? ==> r.error == AlreadyExists
    ensures r.Ok? ==> r.value == UniversityPath(input.state.value, input.city.value, input.campus.value)
  {
    match VerifySuperAdmin(auth)
    case Err(e) => Err(e)
    case Ok(_) =>
      if !Complete(input) then Err(InvalidArgument)
      else
        var path := UniversityPath(input.state.value, input.city.value, input.campus.value);
        if path in universities then Err(AlreadyExists) else Ok(path)
  }

  function MarkerFor(name: string, createdBy: string, now: int): (m: CollectionMarker)
    ensures m.collection == name && m.createdBy == createdBy && m.createdAt == now && m.version == 1
  {
    CollectionMarker(name, now, createdBy, 1)
  }

  /** The markers of a new university, keyed by collection. */
  function CollectionMarkers(names: seq<string>, createdBy: string, now: int): (m: map<string, CollectionMarker>)
    ensures forall n :: n in m <==> n in names
    ensures forall n :: n in m ==> m[n] == MarkerFor(n, createdBy, now)
    decreases |names|
  {
    if names == [] then map[]
    else
      var last := names[|names| - 1];
      CollectionMarkers(names[..|names| - 1], createdBy, now)[last := MarkerFor(last, createdBy, now)]
  }

  /** One more collection in the loop is one more marker. */
  lemma CollectionMarkersNext(names: seq<string>, createdBy: string, now: int, i: nat)
    requires i < |names|
    ensures CollectionMarkers(names[..i + 1], createdBy, now) ==
      CollectionMarkers(names[..i], createdBy, now)[names[i] := MarkerFor(names[i], createdBy, now)]
  {
    assert names[..i + 1][..i] == names[..i];
  }

  /** The loop that adds one marker per collection to the batch. */
  method BatchMarkers(names: seq<string>, createdBy: string, now: int) returns (batch: map<string, CollectionMarker>)
    ensures batch == CollectionMarkers(names, createdBy, now)
  {
    batch := map[];
    for i := 0 to |names|
      invariant batch == CollectionMarkers(names[..i], createdBy, now)
    {
      CollectionMarkersNext(names, createdBy, now, i);
      batch := batch[names[i] := MarkerFor(names[i], createdBy, now)];
    }
    assert names[..|names|] == names;
  }

  /** The default settings: the program is active and registration is open. */
  function DefaultSettings(name: string, year: int, now: int): (s: UniversitySettings)
    ensures s.universityName == name && s.academicYear == year
    ensures s.mentorshipProgramActive && s.registrationOpen && s.createdAt == now && s.updatedAt == now
  {
    UniversitySettings(name, year, true, true, now, now)
  }

  datatype Initialized = Initialized(universityPath: string, message: string, collections: seq<string>)

  /**
   * initializeUniversity. The batch writes the record, merges the markers
   * over any left under the path, and overwrites the settings. `year` is
   * the current calendar year.
   */
  method InitializeUniversity(p: Platform, auth: Option<Token>, input: UniversityInput, year: int, now: int)
    returns (r: Result<Initialized>)
    modifies p
    ensures r.Err? <==> CheckInitialize(auth, input, old(p.state.universities)).Err?
    ensures r.Err? ==> r.error == CheckInitialize(auth, input, old(p.state.universities)).error && p.state == old(p.state)
    ensures r.Ok? ==>
      var path := CheckInitialize(auth, input, old(p.state.universities)).value;
      r.value == Initialized(path, "University " + input.universityName.value + " initialized successfully", UniversityCollections) &&
      p.state == old(p.state).(
        universities := old(p.state.universities)[path := University(path, input.universityName.value, input.state.value,
          input.city.value, input.campus.value, path, now, auth.value.uid)],
        collectionMarkers := old(p.state.collectionMarkers)[path :=
          (if path in old(p.state.collectionMarkers) then old(p.state.collectionMarkers)[path] else map[]) +
          CollectionMarkers(UniversityCollections, auth.value.uid, now)],
        settings := old(p.state.settings)[path := DefaultSettings(input.universityName.value, year, now)])
  {
    var checked := CheckInitialize(auth, input, p.state.universities);
    if checked.Err? {
      return Err(checked.error);
    }
    var path := checked.value;
    var uid := auth.value.uid;
    var name := input.universityName.value;
    var record := University(path, name, input.state.value, input.city.value, input.campus.value, path, now, uid);
    var batch := BatchMarkers(UniversityCollections, uid, now);
    var existing := if path in p.state.collectionMarkers then p.state.collectionMarkers[path] else map[];
    p.state := p.state.(
      universities := p.state.universities[path := record],
      collectionMarkers := p.state.collectionMarkers[path := existing + batch],
      settings := p.state.settings[path := DefaultSettings(name, year, now)]);
    return Ok(Initialized(path, "University " + name + " initialized successfully", UniversityCollections));
  }

  /** deleteUniversity: only the record goes; collections, markers and settings stay. */
  method DeleteUniversity(p: Platform, auth: Option<Token>, universityPath: Option<string>) returns (r: Result<string>)
    modifies p
    ensures VerifySuperAdmin(auth).Err? ==> r == Err(VerifySuperAdmin(auth).error)
    ensures VerifySuperAdmin(auth).Ok? && !Truthy(universityPath) ==> r == Err(InvalidArgument)
    ensures r.Ok? <==> VerifySuperAdmin(auth).Ok? && Truthy(universityPath)
    ensures r.Err? ==> p.state == old(p.state)
    ensures r.Ok? ==> (r.value == "University " + universityPath.value + " deleted successfully" &&
      p.state == old(p.state).(universities := old(p.state.universities) - {universityPath.value}))
  {
    var gate := VerifySuperAdmin(auth);
    if gate.Err? {
      return Err(gate.error);
    }
    if !Truthy(universityPath) {
      return Err(InvalidArgument);
    }
    p.state := p.state.(universities := p.state.universities - {universityPath.value});
    return Ok("University " + universityPath.value + " deleted successfully");
  }

  /** getUniversities: every university record, in id order, for a super admin. */
  function GetUniversities(auth: Option<Token>, universities: map<string, University>): (r: Result<seq<University>>)
    ensures r.Err? <==> VerifySuperAdmin(auth).Err?
    ensures r.Err? ==> r.error == VerifySuperAdmin(auth).error
    ensures r.Ok? ==> |r.value| == |universities.Keys|
    ensures r.Ok? ==> r.value == Records(universities)
  {
    match VerifySuperAdmin(auth)
    case Err(e) => Err(e)
    case Ok(_) => Ok(Records(universities))
  }

  /** The university records in id order. */
  function Records(universities: map<string, University>): (r: seq<University>)
    ensures |r| == |universities.Keys|
  {
    var ids := SortedKeys(universities.Keys);
    seq(|ids|, i requires 0 <= i < |ids| => universities[ids[i]])
  }

  /**
   * The listing holds every record once: the i-th entry is the record of
   * the i-th id, ids in increasing order, and every id has its entry.
   */
  lemma RecordsSpec(universities: map<string, University>)
    ensures var r := Records(universities); var ids := SortedKeys(universities.Keys);
      |ids| == |r| &&
      (forall i :: 0 <= i < |r| ==> ids[i] in universities && r[i] == universities[ids[i]]) &&
      (forall i, j :: 0 <= i < j < |ids| ==> Lt(ids[i], ids[j])) &&
      (forall id :: id in universities ==> exists i :: 0 <= i < |r| && ids[i] == id && r[i] == universities[id])
  {
    var r := Records(universities);
    var ids := SortedKeys(universities.Keys);
    forall id | id in universities
      ensures exists i :: 0 <= i < |r| && ids[i] == id && r[i] == universities[id]
    {
      var i :| 0 <= i < |ids| && ids[i] == id;
      assert r[i] == universities[id];
    }
  }

  // ---------------------------------------------------------------- properties

  /**
   * After setup every one of the eleven collections carries a fresh
   * version-1 marker, whatever was there before, and a marker of any other
   * collection left under the path survives.
   */
  lemma MergedMarkers(existing: map<string, CollectionMarker>, createdBy: string, now: int)
    ensures var merged := existing + CollectionMarkers(UniversityCollections, createdBy, now);
      (forall n :: n in UniversityCollections ==> n in merged && merged[n] == MarkerFor(n, createdBy, now)) &&
      (forall n :: n in existing && n !in UniversityCollections ==> n in merged && merged[n] == existing[n]) &&
      (forall n :: n in merged ==> n in existing || n in UniversityCollections)
  {
  }

  /** A university is set up once: the same request a second time is refused as already existing. */
  lemma InitializeOnce(auth: Option<Token>, input: UniversityInput, universities: map<string, University>, record: University)
    requires CheckInitialize(auth, input, universities).Ok?
    ensures var path := CheckInitialize(auth, input, universities).value;
      CheckInitialize(auth, input, universities[path := record]) == Err(AlreadyExists)
  {
  }

  /**
   * Deleting leaves the university's data behind: the same setup request
   * is accepted again, and it finds the old markers and settings in place.
   */
  lemma DeleteThenInitializeAgain(auth: Option<Token>, input: UniversityInput, s: PlatformState)
    requires VerifySuperAdmin(auth).Ok? && Complete(input)
    requires UniversityPath(input.state.value, input.city.value, input.campus.value) in s.settings
    ensures var path := UniversityPath(input.state.value, input.city.value, input.campus.value);
      var deleted := s.(universities := s.universities - {path});
      CheckInitialize(auth, input, deleted.universities) == Ok(path) && path in deleted.settings
  {
  }

  /** A complete request never yields the empty path, so every write has a document to go to. */
  lemma PathNotEmpty(input: UniversityInput)
    requires Complete(input)
    ensures UniversityPath(input.state.value, input.city.value, input.campus.value) != ""
  {
    var joined := input.state.value + "_" + input.city.value + "_" + input.campus.value;
    assert |ToLowerAscii(joined)| == |joined| > 0;
  }
}
