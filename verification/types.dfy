/** The record shapes the markdown readers build (agents, personas, tasks, projects). */
module Types {
  import opened Strings

  datatype AgentStatus = Active | Busy | Idle

  datatype TaskStatus = Todo | InProgress | Blocked | Completed

  datatype Priority = High | Medium | Low

  /** A persona read from an agent's SOUL.md. */
  datatype AgentSoul = AgentSoul(
    personality: string,
    specialties: seq<string>,
    whenToUse: seq<string>,
    systemPrompt: string,
    boundaries: seq<string>)

  datatype Agent = Agent(
    id: string,
    name: string,
    role: string,
    model: string,
    responsibility: string,
    status: AgentStatus,
    temperature: Option<string>,
    soul: Option<AgentSoul>)

  datatype Task = Task(
    id: string,
    title: string,
    status: TaskStatus,
    agent: Option<string>,
    priority: Option<Priority>,
    description: Option<string>,
    section: string)

  /** A project's free-form `details` record; the readers always leave it empty. */
  datatype DetailValue = Text(text: string) | List(items: seq<string>)

  datatype Project = Project(
    id: string,
    name: string,
    status: string,
    url: Option<string>,
    description: Option<string>,
    techStack: Option<seq<string>>,
    pending: Option<seq<string>>,
    details: map<string, DetailValue>)

  /** The parts of the dashboard snapshot that come from the workspace documents. */
  datatype MissionControlData = MissionControlData(
    agents: seq<Agent>,
    tasks: seq<Task>,
    projects: seq<Project>,
    lastUpdated: string)

  function PriorityName(p: Priority): string {
    match p
    case High => "high"
    case Medium => "medium"
    case Low => "low"
  }
}
