/** The records the dashboard works on (frontend/src/types/employee.ts), reduced
    to the fields the modelled components read. Optional fields are `Option`s;
    a zone read from data stays a string, since nothing checks it at run time. */
module EmployeeTypes {
  import opened Common

  /** The five discrete moods an employee can report. */
  datatype VibeZone = Frustrated | Sad | Okay | Happy | Excited

  const AllZones: seq<VibeZone> := [Frustrated, Sad, Okay, Happy, Excited]

  function ZoneName(z: VibeZone): string
  {
    match z
    case Frustrated => "Frustrated"
    case Sad => "Sad"
    case Okay => "Okay"
    case Happy => "Happy"
    case Excited => "Excited"
  }

  /** The zone a string names, if it names one exactly. */
  function ParseZone(s: string): (r: Option<VibeZone>)
    ensures r.Some? ==> ZoneName(r.value) == s
    ensures r.None? ==> forall z :: ZoneName(z) != s
  {
    if s == "Frustrated" then Some(Frustrated)
    else if s == "Sad" then Some(Sad)
    else if s == "Okay" then Some(Okay)
    else if s == "Happy" then Some(Happy)
    else if s == "Excited" then Some(Excited)
    else None
  }

  /** JavaScript truthiness of an optional string field. */
  predicate Truthy(s: Option<string>)
  {
    s.Some? && s.value != ""
  }

  /** One vibemeter answer (`VibeResponse`); `date` is an instant in
      milliseconds since the epoch. */
  datatype VibeResponse = VibeResponse(
    id: string,
    employeeId: string,
    date: int,
    score: real,
    vibeZone: Option<string>)

  /** One conversation with the assistant (`AiConversation`); an absent
      `escalated` flag is `false`. */
  datatype AiConversation = AiConversation(
    id: string,
    employeeId: string,
    summary: string,
    actionItems: seq<string>,
    requiresAttention: bool,
    escalated: bool)

  datatype AiStats = AiStats(
    engagementRate: real,
    responseRate: Option<real>,
    avgConversationLength: Option<real>,
    weeklyInteractions: Option<real>,
    actionableFeedbackRate: Option<real>)

  datatype Metrics = Metrics(vibeAverage: Option<real>)

  /** An employee record (`Employee`). */
  datatype Employee = Employee(
    id: string,
    name: string,
    department: string,
    position: Option<string>,
    lastVibe: Option<string>,
    vibeZone: Option<string>,
    aiStats: Option<AiStats>,
    metrics: Option<Metrics>)
}
