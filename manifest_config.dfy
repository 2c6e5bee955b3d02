/**
 * The manifest builder's constants (visit, session and group maps, the groups
 * kept, the manifest columns), its configuration and its errors.
 */
module ManifestConfig {
  import opened Wrappers
  import opened Sequences

  /** Research groups kept in the manifest. */
  const GROUPS_KEEP: seq<string> :=
    ["Parkinson's Disease", "Prodromal", "Healthy Control", "SWEDD", "GenReg Unaff"]

  /** Imaging visit labels to visit codes. */
  const VISIT_IMAGING_MAP: map<string, string> := map[
    "Baseline" := "BL",
    "Month 6" := "R01",
    "Month 12" := "V04",
    "Month 24" := "V06",
    "Month 36" := "V08",
    "Month 48" := "V10",
    "Screening" := "SC",
    "Premature Withdrawal" := "PW",
    "Symptomatic Therapy" := "ST",
    "Unscheduled Visit 01" := "U01",
    "Unscheduled Visit 02" := "U02"]

  /** Imaging research-group labels to the participant-status naming. */
  const GROUP_IMAGING_MAP: map<string, string> := map[
    "PD" := "Parkinson's Disease",
    "Prodromal" := "Prodromal",
    "Control" := "Healthy Control",
    "Phantom" := "Phantom",
    "SWEDD" := "SWEDD",
    "GenReg Unaff" := "GenReg Unaff"]

  /** Visit codes to session codes. */
  const VISIT_SESSION_MAP: map<string, string> := map[
    "BL" := "1",
    "V04" := "5",
    "V06" := "7",
    "V08" := "9",
    "V10" := "11",
    "PW" := "30",
    "ST" := "21",
    "U02" := "91",
    "U01" := "90",
    "SC" := "0",
    "R01" := "3"]

  /** The key columns every tabular file must have: subject and visit. */
  const COL_SUBJECT_TABULAR: string := "PATNO"
  const COL_VISIT_TABULAR: string := "EVENT_ID"

  /** `PATTERN_BIDS_SESSION` is `'ses-{}'`. */
  const BIDS_SESSION_PREFIX: string := "ses-"

  /** The part of the global configuration the builder reads: the `SESSIONS` list. */
  datatype GlobalConfig = GlobalConfig(sessions: seq<string>)

  datatype ManifestError =
    | InvalidVisitSessionMap
    | NoTabularFiles
    | MissingTabularColumns(file: nat)
    | UnmappedVisit(visit: Option<string>)
    | UnmappedGroup(group: Option<string>)
    | ManifestExists

  /** The sessions that have no entry among `sessionCodes` (a set difference). */
  function UncoveredSessions(sessions: seq<string>, sessionCodes: set<string>): (r: set<string>)
    ensures forall s :: s in r <==> s in sessions && s !in sessionCodes
  {
    Elems(sessions) - sessionCodes
  }

  /**
   * `validate_visit_session_map`: fails when some configured session is not
   * a value of `VISIT_SESSION_MAP`.
   */
  function ValidateVisitSessionMap(cfg: GlobalConfig): (r: Outcome<ManifestError>)
    ensures r.Fail? <==> exists s :: s in cfg.sessions && s !in VISIT_SESSION_MAP.Values
    ensures r.Fail? ==> r.error == InvalidVisitSessionMap
  {
    var missing := UncoveredSessions(cfg.sessions, VISIT_SESSION_MAP.Values);
    if |missing| > 0 then
      assert exists s :: s in cfg.sessions && s !in VISIT_SESSION_MAP.Values by {
        var s :| s in missing;
      }
      Fail(InvalidVisitSessionMap)
    else
      assert missing == {};
      Pass
  }

  /** The session of a visit code (`Series.map(VISIT_SESSION_MAP)`); missing when unmapped. */
  function VisitSession(visitCode: string): (r: Option<string>)
    ensures r.Some? <==> visitCode in VISIT_SESSION_MAP
    ensures r.Some? ==> r.value == VISIT_SESSION_MAP[visitCode]
  {
    if visitCode in VISIT_SESSION_MAP then Some(VISIT_SESSION_MAP[visitCode]) else None
  }

  /** BIDS session naming; a missing session stays missing. */
  function FormatSession(session: Option<string>): (r: Option<string>)
    ensures r.Some? <==> session.Some?
    ensures r.Some? ==> |r.value| == |session.value| + 4 && r.value[..4] == "ses-" && r.value[4..] == session.value
  {
    match session
    case None => None
    case Some(s) => Some(BIDS_SESSION_PREFIX + s)
  }

  /** Every visit code the imaging map produces has a session, so no imaging row loses its session. */
  lemma EveryImagingVisitHasSession()
    ensures forall v :: v in VISIT_IMAGING_MAP ==> VisitSession(VISIT_IMAGING_MAP[v]).Some?
  {
  }

  /** 'Month 12' is visit V04, session 5, formatted 'ses-5'. */
  lemma Month12IsSession5()
    ensures VISIT_IMAGING_MAP["Month 12"] == "V04"
    ensures FormatSession(VisitSession(VISIT_IMAGING_MAP["Month 12"])) == Some("ses-5")
  {
    assert VISIT_SESSION_MAP["V04"] == "5";
    assert BIDS_SESSION_PREFIX + "5" == "ses-5";
  }
}
