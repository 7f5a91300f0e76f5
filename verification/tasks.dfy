/** The TaskFlow list and its one operation, `toggleTask`. */
module Tasks {

  datatype Priority = Low | Medium | High

  datatype Task = Task(id: string, text: string, completed: bool, priority: Priority)

  /** The three tasks the list starts with. */
  function InitialTasks(): seq<Task> {
    [ Task("1", "Design FluxOS interface", true, High),
      Task("2", "Implement gesture controls", false, Medium),
      Task("3", "Test FluxConnect sync", false, Low) ]
  }

  /** The ids of a task list, in order. */
  function Ids(ts: seq<Task>): (r: seq<string>)
    ensures |r| == |ts|
    ensures forall i :: 0 <= i < |ts| ==> r[i] == ts[i].id
  {
    if ts == [] then [] else [ts[0].id] + Ids(ts[1..])
  }

  /**
   * `tasks.map(t => t.id === id ? {...t, completed: !t.completed} : t)`:
   * every task whose id matches has its completion flipped, every other
   * task is kept, and the order and length are those of the input.
   */
  function ToggleTask(ts: seq<Task>, id: string): (r: seq<Task>)
    ensures |r| == |ts|
    ensures forall i :: 0 <= i < |ts| ==>
      && r[i].id == ts[i].id
      && r[i].text == ts[i].text
      && r[i].priority == ts[i].priority
    ensures forall i :: 0 <= i < |ts| ==>
      (r[i].completed != ts[i].completed <==> ts[i].id == id)
  {
    if ts == [] then []
    else
      var t := ts[0];
      var t' := if t.id == id then t.(completed := !t.completed) else t;
      [t'] + ToggleTask(ts[1..], id)
  }

  /** Only matching tasks change; all others are equal to what they were. */
  lemma ToggleFrame(ts: seq<Task>, id: string, i: int)
    requires 0 <= i < |ts|
    ensures ts[i].id != id ==> ToggleTask(ts, id)[i] == ts[i]
    ensures ts[i].id == id ==> ToggleTask(ts, id)[i] == ts[i].(completed := !ts[i].completed)
  {
  }

  /** Toggling an id no task carries leaves the list as it was. */
  lemma ToggleAbsentIsNoOp(ts: seq<Task>, id: string)
    requires id !in Ids(ts)
    ensures ToggleTask(ts, id) == ts
  {
  }

  /** Toggling the same id twice restores the original list. */
  lemma ToggleTwice(ts: seq<Task>, id: string)
    ensures ToggleTask(ToggleTask(ts, id), id) == ts
  {
  }

  /** Toggles of two ids commute. */
  lemma ToggleCommutes(ts: seq<Task>, a: string, b: string)
    ensures ToggleTask(ToggleTask(ts, a), b) == ToggleTask(ToggleTask(ts, b), a)
  {
  }

  /** A toggle keeps the id sequence, so the list keeps its shape under any series of toggles. */
  lemma ToggleKeepsIds(ts: seq<Task>, id: string)
    ensures Ids(ToggleTask(ts, id)) == Ids(ts)
  {
  }
}
