/** The records of app/models: clients, projects, timers and date groups.
    Instants are milliseconds since the epoch; durations are minutes. A set instant is a
    `Date` or the ISO text the server sends, truthy even at the epoch, so `Some` is
    all a truthiness test on it sees. */
module Models {
  import opened Js

  datatype Client = Client(id: int, name: string, email: string, phone: string, address: string)

  /** The fields a new client is created with. */
  datatype ClientCreate = ClientCreate(name: string, email: string, phone: string, address: string)

  /** A project. `clientId` is whatever `Number` made of the form text, so it may be NaN.
      `status` is not declared on the interface but the projects page reads
      and writes it, so it is part of the record here. */
  datatype Project = Project(
    id: int,
    name: string,
    description: Option<string>,
    userId: Option<int>,
    clientId: Option<Number>,
    status: Option<string>,
    createdAt: Option<int>,
    updatedAt: Option<int>)

  datatype ProjectCreate = ProjectCreate(
    name: string,
    description: Option<string>,
    clientId: Option<Number>,
    status: Option<string>)

  datatype Tag = Tag(id: int, name: string)

  datatype Timer = Timer(
    id: int,
    startTime: Option<int>,
    endTime: Option<int>,
    duration: Option<real>,
    description: Option<string>,
    project: Option<Project>,
    tag: Option<Tag>)

  /** One day of timers, read as `.date` and `.timers` by the grouped list. */
  datatype DateGroup = DateGroup(date: string, timers: seq<Timer>)

  /** A timer update as sent with `updateOnStopTimer`; `None` is a member left
      `undefined`, which JSON serialisation drops from the request body. */
  datatype TimerUpdate = TimerUpdate(
    id: int,
    description: Option<string>,
    startTime: Option<int>,
    endTime: Option<int>,
    duration: Option<Number>,
    project: Option<Project>)

  /** `items.find(x => x.id === id)` */
  function FindProject(projects: seq<Project>, id: int): (r: Option<Project>)
    ensures r.Some? ==> r.value in projects && r.value.id == id
    ensures r.None? ==> forall p :: p in projects ==> p.id != id
    ensures r.Some? ==>
      exists i :: 0 <= i < |projects| && projects[i] == r.value && (forall j :: 0 <= j < i ==> projects[j].id != id)
  {
    if projects == [] then None
    else if projects[0].id == id then Some(projects[0])
    else FindProject(projects[1..], id)
  }
}
