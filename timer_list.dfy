/** The older flat timer list of components/common/timer-list.tsx: one shared edit
    buffer for all rows, a save on blur, and a start/stop button per row. The
    component's own copies of the two duration converters are the ones of module Time. */
module TimerList {
  import opened Js
  import opened Models
  import Time

  /** The edit-buffer state fields. */
  datatype Buffer = Buffer(
    editingTimerId: Option<int>,
    description: string,
    startTime: Option<int>,
    endTime: Option<int>,
    projectId: Option<int>,
    duration: string)

  const InitialBuffer := Buffer(None, "", None, None, None, "")

  /** `editTimer`: takes the row's id and fills the buffer from its values. */
  function Edit(t: Timer): Buffer {
    Buffer(
      Some(t.id),
      t.description.GetOr(""),
      t.startTime,
      t.endTime,
      if t.project.Some? then Some(t.project.value.id) else None,
      Time.MinutesToDuration(t.duration.GetOr(0.0)))
  }

  /** The body `handleSave` sends for `timerId`. The project is looked up only for a
      truthy id, so a null or 0 id sends none; the duration is always a number, maybe NaN. */
  function SavePayload(b: Buffer, timerId: int, projects: seq<Project>): TimerUpdate {
    TimerUpdate(
      timerId,
      Some(b.description),
      b.startTime,
      b.endTime,
      Some(Time.DurationToMinutes(b.duration)),
      if b.projectId.Some? && b.projectId.value != 0 then FindProject(projects, b.projectId.value) else None)
  }

  /** The body the start/stop button sends: a stopped timer (one with an end) gets a new
      start, a running one (no end) gets an end; every other member is left undefined. */
  function StartStopPayload(t: Timer, now: int): TimerUpdate {
    if t.endTime.Some? then TimerUpdate(t.id, None, Some(now), None, None, None)
    else TimerUpdate(t.id, None, None, Some(now), None, None)
  }

  datatype Icon = Play | Stop

  function ButtonIcon(t: Timer): Icon {
    if t.endTime.Some? then Play else Stop
  }

  /** What a row shows. */
  datatype RowView = RowView(description: string, startTime: Option<int>, endTime: Option<int>, duration: string, project: string)

  /** `String(x)` of an optional project id: `null` for the buffer, `undefined` for a stored row. */
  function IdText(id: Option<int>, absent: string): string {
    if id.Some? then IntToString(id.value) else absent
  }

  /** A row when it is not being edited. */
  function StoredView(t: Timer): RowView {
    RowView(
      t.description.GetOr(""),
      t.startTime,
      t.endTime,
      Time.MinutesToDuration(t.duration.GetOr(0.0)),
      IdText(if t.project.Some? then Some(t.project.value.id) else None, "undefined"))
  }

  /** The value-selection rule: a row shows the buffer only when its id is the one being edited. */
  function Displayed(b: Buffer, t: Timer): RowView {
    if b.editingTimerId == Some(t.id) then
      RowView(
        b.description,
        if b.startTime.Some? then b.startTime else t.startTime,
        if b.endTime.Some? then b.endTime else t.endTime,
        b.duration,
        IdText(b.projectId, "null"))
    else StoredView(t)
  }

  // ------------------------------------------------------------ properties

  /** Rows other than the one being edited show their stored values. */
  lemma OtherRowsShowStoredValues(b: Buffer, t: Timer)
    requires b.editingTimerId != Some(t.id)
    ensures Displayed(b, t) == StoredView(t)
  {
  }

  /** Opening a row for editing shows the same values as before, except that a row
      without a project now shows `null` in place of `undefined`. */
  lemma EditShowsStoredValues(t: Timer, u: Timer)
    ensures Displayed(Edit(t), t) ==
      if t.project.Some? then StoredView(t) else StoredView(t).(project := "null")
    ensures u.id != t.id ==> Displayed(Edit(t), u) == StoredView(u)
  {
  }

  /** Saving a row right after opening it sends its own values back, with the duration
      cut to whole seconds; the project is resolved again from the list by id. */
  lemma {:induction false} EditThenSave(t: Timer, projects: seq<Project>)
    requires t.duration.GetOr(0.0) >= 0.0
    ensures var p := SavePayload(Edit(t), t.id, projects);
      var d := t.duration.GetOr(0.0);
      p.id == t.id && p.description == Some(t.description.GetOr("")) &&
      p.startTime == t.startTime && p.endTime == t.endTime &&
      p.duration == Some(Num((d * 60.0).Floor as real / 60.0)) &&
      (t.project.Some? && t.project.value.id != 0 && t.project.value in projects ==>
        p.project.Some? && p.project.value.id == t.project.value.id)
  {
    Time.MinutesRoundTrip(t.duration.GetOr(0.0));
  }

  /** Since nothing opens a row for editing, a blur sends the initial buffer: an empty
      description, NaN minutes read from '', and no project. */
  lemma BlurSendsInitialBuffer(timerId: int, projects: seq<Project>)
    ensures SavePayload(InitialBuffer, timerId, projects) ==
      TimerUpdate(timerId, Some(""), None, None, Some(NaN), None)
  {
    Time.NoColonIsNaN("");
  }

  /** A buffered project id of 0 sends no project, as if there were none. */
  lemma ZeroProjectSendsNone(b: Buffer, timerId: int, projects: seq<Project>)
    requires b.projectId == Some(0)
    ensures SavePayload(b, timerId, projects).project == None
  {
  }

  /** The button shows Play exactly when pressing it restarts the timer, and the id is kept. */
  lemma IconMatchesAction(t: Timer, now: int)
    ensures ButtonIcon(t) == Play <==> StartStopPayload(t, now).startTime == Some(now)
    ensures ButtonIcon(t) == Stop <==> StartStopPayload(t, now).endTime == Some(now)
    ensures StartStopPayload(t, now).id == t.id && StartStopPayload(t, now).duration == None
  {
  }

  /** The component's state. `timers` is whatever the last `getTimers(0)` returned. */
  class List {
    var timers: seq<Timer>
    var editingTimerId: Option<int>
    var editedDescription: string
    var editedStartTime: Option<int>
    var editedEndTime: Option<int>
    var editedProjectId: Option<int>
    var editedDuration: string

    function Buf(): Buffer
      reads this
    {
      Buffer(editingTimerId, editedDescription, editedStartTime, editedEndTime, editedProjectId, editedDuration)
    }

    constructor ()
      ensures timers == [] && Buf() == InitialBuffer
    {
      timers := [];
      editingTimerId := None;
      editedDescription := "";
      editedStartTime := None;
      editedEndTime := None;
      editedProjectId := None;
      editedDuration := "";
    }

    /** The mount effect: the list becomes the first page as fetched. */
    method Load(fetched: seq<Timer>)
      modifies this
      ensures timers == fetched && Buf() == old(Buf())
    {
      timers := fetched;
    }

    method EditTimer(t: Timer)
      modifies this
      ensures Buf() == Edit(t) && timers == old(timers)
    {
      editingTimerId := Some(t.id);
      editedDescription := t.description.GetOr("");
      editedStartTime := t.startTime;
      editedEndTime := t.endTime;
      editedProjectId := if t.project.Some? then Some(t.project.value.id) else None;
      editedDuration := Time.MinutesToDuration(t.duration.GetOr(0.0));
    }

    /** The input handlers. */
    method SetDescription(v: string)
      modifies this
      ensures Buf() == old(Buf()).(description := v) && timers == old(timers)
    {
      editedDescription := v;
    }

    method SetDuration(v: string)
      modifies this
      ensures Buf() == old(Buf()).(duration := v) && timers == old(timers)
    {
      editedDuration := v;
    }

    /** The project menu hands over the id as text, read with `Number`. */
    method SelectProject(projectId: string)
      modifies this
      ensures Buf() == old(Buf()).(projectId := IntegerText(projectId)) && timers == old(timers)
    {
      editedProjectId := IntegerText(projectId);
    }

    /** `handleSave` (also what every blur does): sends the buffer; once the update has
        resolved (`updated`) it stops editing and replaces the list with a fresh page 0,
        unless that fetch rejects (`refreshed == None`). A rejected update escapes the
        handler before either step, so nothing changes. */
    method HandleSave(timerId: int, projects: seq<Project>, updated: bool, refreshed: Option<seq<Timer>>) returns (sent: TimerUpdate)
      modifies this
      ensures sent == SavePayload(old(Buf()), timerId, projects)
      ensures updated ==> Buf() == old(Buf()).(editingTimerId := None)
      ensures updated && refreshed.Some? ==> timers == refreshed.value
      ensures updated && refreshed.None? ==> timers == old(timers)
      ensures !updated ==> Buf() == old(Buf()) && timers == old(timers)
    {
      var durationInMinutes := Time.DurationToMinutes(editedDuration);
      var project := if editedProjectId.Some? && editedProjectId.value != 0
        then FindProject(projects, editedProjectId.value) else None;
      sent := TimerUpdate(timerId, Some(editedDescription), editedStartTime, editedEndTime, Some(durationInMinutes), project);
      if !updated {
        return;
      }
      editingTimerId := None;
      if refreshed.Some? {
        timers := refreshed.value;
      }
    }

    /** `handleStartStop`: sends the start or the stop and, once it has resolved, replaces
        the list with a fresh page 0; a rejected update or refresh leaves the list. */
    method HandleStartStop(t: Timer, now: int, updated: bool, refreshed: Option<seq<Timer>>) returns (sent: TimerUpdate)
      modifies this
      ensures sent == StartStopPayload(t, now)
      ensures Buf() == old(Buf())
      ensures updated && refreshed.Some? ==> timers == refreshed.value
      ensures !updated || refreshed.None? ==> timers == old(timers)
    {
      if t.endTime.Some? {
        sent := TimerUpdate(t.id, None, Some(now), None, None, None);
      } else {
        sent := TimerUpdate(t.id, None, None, Some(now), None, None);
      }
      if updated && refreshed.Some? {
        timers := refreshed.value;
      }
    }

    function Row(t: Timer): RowView
      reads this
    {
      Displayed(Buf(), t)
    }
  }
}
