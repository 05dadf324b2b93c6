/**
 The executor's task records, task lists and request handlers (xxl/task.go, xxl/task_list.go,
 xxl/executor.go).

 One `Task` object exists per registered handler and both lists hold references to it, so a
 launch overwrites the record that an earlier launch is still using. The methods here run
 without interference; ExecutorProtocol interleaves the same list operations.
 */
module XxlTask {
  import opened Common
  import opened Decimal

  datatype Req = Req(jobId: int, handler: string, coverEarly: bool, logId: int)

  datatype Reply = Accepted | NotRegistered | AlreadyRunning | NotRunning

  /**
   The fields of one Task. `cancel` names the context whose cancel function the record holds:
   contexts are numbered in the order of the launches that make them.
   */
  datatype Rec = Rec(fn: string, id: int, param: Option<Req>, cancel: Option<nat>)

  /** The executor's memory: `recs` is the heap of tasks, the lists map keys to positions in it. */
  datatype View = View(
    recs: seq<Rec>,
    reg: map<string, nat>,
    run: map<string, nat>,
    launched: nat,
    cancelled: set<nat>)

  predicate WellFormed(v: View) {
    && (forall h :: h in v.reg ==> v.reg[h] < |v.recs| && v.recs[v.reg[h]].fn == h)
    && (forall k :: k in v.run ==> v.run[k] < |v.recs|)
  }

  function Key(jobId: int): string {
    FormatInt(jobId)
  }

  function Registered(v: View, h: string): View {
    v.(recs := v.recs + [Rec(h, 0, None, None)], reg := v.reg[h := |v.recs|])
  }

  /** Calls the cancel function that the record holds now. */
  function Cancelled(v: View, ref: nat): View
    requires ref < |v.recs|
  {
    if v.recs[ref].cancel.Some? then v.(cancelled := v.cancelled + {v.recs[ref].cancel.value}) else v
  }

  function Deleted(v: View, key: string): View {
    v.(run := v.run - {key})
  }

  function Launched(v: View, ref: nat, req: Req): View
    requires ref < |v.recs|
  {
    v.(recs := v.recs[ref := Rec(v.recs[ref].fn, req.jobId, Some(req), Some(v.launched))],
       run := v.run[Key(req.jobId) := ref],
       launched := v.launched + 1)
  }

  /** COVER_EARLY on a listed job: the delete goes by the id in the record, not by the request. */
  function Covered(v: View, jobId: int): View
    requires WellFormed(v) && Key(jobId) in v.run
  {
    var prev := v.run[Key(jobId)];
    Deleted(Cancelled(v, prev), Key(v.recs[prev].id))
  }

  function RunTaskSpec(v: View, req: Req): (View, Reply)
    requires WellFormed(v)
  {
    var k := Key(req.jobId);
    if req.handler !in v.reg then (v, NotRegistered)
    else if k !in v.run then (Launched(v, v.reg[req.handler], req), Accepted)
    else if !req.coverEarly then (v, AlreadyRunning)
    else
      var w := Covered(v, req.jobId);
      (Launched(w, w.reg[req.handler], req), Accepted)
  }

  function KillTaskSpec(v: View, jobId: int): (View, Reply)
    requires WellFormed(v)
  {
    var k := Key(jobId);
    if k in v.run then (Deleted(Cancelled(v, v.run[k]), k), Accepted) else (v, NotRunning)
  }

  class Task {
    const ref: nat
    const fn: string
    var id: int
    var param: Option<Req>
    var cancel: Option<nat>

    constructor (ref: nat, fn: string)
      ensures this.ref == ref && this.fn == fn
      ensures id == 0 && param == None && cancel == None
    {
      this.ref, this.fn := ref, fn;
      id, param, cancel := 0, None, None;
    }

    ghost function Sees(): Rec
      reads this
    {
      Rec(fn, id, param, cancel)
    }
  }

  class TaskList {
    var data: map<string, Task>

    constructor ()
      ensures data == map[]
    {
      data := map[];
    }

    method Set(key: string, val: Task)
      modifies this
      ensures data == old(data)[key := val]
    {
      data := data[key := val];
    }

    method Get(key: string) returns (t: Task?)
      ensures t == if key in data then data[key] else null
    {
      t := if key in data then data[key] else null;
    }

    method Del(key: string)
      modifies this
      ensures data == old(data) - {key}
    {
      data := data - {key};
    }

    method Exists(key: string) returns (b: bool)
      ensures b == (key in data)
    {
      b := key in data;
    }
  }

  class Executor {
    const regList: TaskList
    const runList: TaskList
    var registered: nat
    var launched: nat
    var cancelled: set<nat>
    ghost var tasks: seq<Task>

    ghost predicate Holds(list: TaskList)
      reads this, list
    {
      forall k :: k in list.data ==> list.data[k].ref < |tasks| && tasks[list.data[k].ref] == list.data[k]
    }

    ghost predicate Valid()
      reads this, regList, runList
    {
      && regList != runList && registered == |tasks|
      && (forall i :: 0 <= i < |tasks| ==> tasks[i].ref == i)
      && Holds(regList) && Holds(runList)
      && (forall h :: h in regList.data ==> regList.data[h].fn == h)
    }

    ghost function Sees(): View
      reads this, regList, runList, tasks
      requires Valid()
    {
      View(seq(|tasks|, i requires 0 <= i < |tasks| reads this, tasks => tasks[i].Sees()),
           map h | h in regList.data :: regList.data[h].ref,
           map k | k in runList.data :: runList.data[k].ref,
           launched,
           cancelled)
    }

    constructor ()
      ensures Valid() && Sees() == View([], map[], map[], 0, {})
    {
      regList := new TaskList();
      runList := new TaskList();
      registered, launched, cancelled, tasks := 0, 0, {}, [];
    }

    method RegTask(pattern: string)
      requires Valid()
      modifies this, regList
      ensures Valid() && Sees() == Registered(old(Sees()), pattern)
      ensures |tasks| == |old(tasks)| + 1 && old(tasks) <= tasks && fresh(tasks[|old(tasks)|])
    {
      ghost var v := Sees();
      var t := new Task(registered, pattern);
      AddRecord(t);
      assert Sees() == v.(recs := v.recs + [Rec(pattern, 0, None, None)]);
      Refer(pattern, t);
    }

    /** The record joins the heap. */
    method AddRecord(t: Task)
      requires Valid() && t.ref == |tasks| && t !in tasks
      modifies this`registered, this`tasks
      ensures Valid() && tasks == old(tasks) + [t]
      ensures Sees() == old(Sees()).(recs := old(Sees()).recs + [t.Sees()])
    {
      registered, tasks := registered + 1, tasks + [t];
    }

    /** The registration list refers to it. */
    method Refer(pattern: string, t: Task)
      requires Valid() && t.ref < |tasks| && tasks[t.ref] == t && t.fn == pattern
      modifies regList
      ensures Valid() && Sees() == old(Sees()).(reg := old(Sees()).reg[pattern := t.ref])
    {
      ghost var v := Sees();
      regList.Set(pattern, t);
      assert Sees().recs == v.recs;
      assert Sees().reg == v.reg[pattern := t.ref];
      assert Sees().run == v.run;
    }

    method DelRunning(key: string)
      requires Valid()
      modifies runList
      ensures Valid() && Sees() == Deleted(old(Sees()), key)
      ensures runList.data == old(runList.data) - {key}
    {
      runList.Del(key);
      assert Sees().recs == old(Sees()).recs;
    }

    method CancelOf(t: Task)
      requires Valid() && t.ref < |tasks| && tasks[t.ref] == t
      modifies this`cancelled
      ensures Valid() && Sees() == Cancelled(old(Sees()), t.ref)
    {
      if t.cancel.Some? {
        cancelled := cancelled + {t.cancel.value};
      }
    }

    method Enlist(t: Task)
      requires Valid() && t.ref < |tasks| && tasks[t.ref] == t
      modifies runList
      ensures Valid() && Sees() == old(Sees()).(run := old(Sees()).run[Key(t.id) := t.ref])
      ensures runList.data == old(runList.data)[Key(t.id) := t]
    {
      runList.Set(FormatInt(t.id), t);
      assert Sees().recs == old(Sees()).recs;
    }

    /** The part of `runTask` after the block strategy: overwrite the shared record, list it, start it. */
    method Launch(t: Task, req: Req)
      requires Valid() && t.ref < |tasks| && tasks[t.ref] == t
      modifies this`launched, runList, t
      ensures Valid() && Sees() == Launched(old(Sees()), t.ref, req)
      ensures runList.data == old(runList.data)[Key(req.jobId) := t] && launched == old(launched) + 1
      ensures t.id == req.jobId && t.param == Some(req) && t.cancel == Some(old(launched))
    {
      ghost var v := Sees();
      t.cancel := Some(launched);
      launched := launched + 1;
      t.id := req.jobId;
      t.param := Some(req);
      ghost var w := Sees();
      assert w == v.(launched := v.launched + 1, recs := Launched(v, t.ref, req).recs);
      Enlist(t);
    }

    /** The COVER_EARLY branch: cancel what the record holds, delete the key it prints. */
    method CoverEarly(jobId: int)
      requires Valid()
      modifies this`cancelled, runList
      ensures Valid() && Sees() == if Key(jobId) in old(Sees()).run then Covered(old(Sees()), jobId) else old(Sees())
    {
      var oldTask := runList.Get(FormatInt(jobId));
      if oldTask != null {
        CancelOf(oldTask);
        DelRunning(FormatInt(oldTask.id));
      }
    }

    /** The handler's own record is listed under the key and holds this request and the newest context. */
    ghost predicate Lists(key: string, req: Req, context: nat)
      reads this, regList, runList, regList.data.Values, runList.data.Values
    {
      && key in runList.data && req.handler in regList.data && runList.data[key] == regList.data[req.handler]
      && runList.data[key].id == req.jobId && runList.data[key].param == Some(req)
      && runList.data[key].cancel == Some(context) && launched == context + 1
    }

    /** Fetches the handler's one record and launches on it. */
    method LaunchHandler(req: Req)
      requires Valid() && req.handler in regList.data
      modifies this`launched, runList, tasks
      ensures Valid() && Sees() == Launched(old(Sees()), old(Sees()).reg[req.handler], req)
      ensures Lists(Key(req.jobId), req, old(launched))
    {
      var task := regList.Get(req.handler);
      assert Sees().reg[req.handler] == task.ref;
      Launch(task, req);
    }

    /** COVER_EARLY for a listed job: the earlier launch is cancelled and unlisted first. */
    method CoverAndLaunch(req: Req)
      requires Valid() && req.handler in regList.data && Key(req.jobId) in Sees().run
      modifies this`launched, this`cancelled, runList, tasks
      ensures Valid()
      ensures Sees() == Launched(Covered(old(Sees()), req.jobId), old(Sees()).reg[req.handler], req)
      ensures Lists(Key(req.jobId), req, old(launched))
    {
      CoverEarly(req.jobId);
      LaunchHandler(req);
    }

    /** The checks before the launch, and whether the job is listed. */
    method Admit(req: Req) returns (reply: Reply, listed: bool)
      requires Valid()
      ensures listed == (Key(req.jobId) in runList.data)
      ensures reply ==
        if req.handler !in regList.data then NotRegistered
        else if listed && !req.coverEarly then AlreadyRunning
        else Accepted
    {
      var known := regList.Exists(req.handler);
      listed := runList.Exists(FormatInt(req.jobId));
      if !known {
        return NotRegistered, listed;
      }
      if listed && !req.coverEarly {
        return AlreadyRunning, listed;
      }
      reply := Accepted;
    }

    method RunTask(req: Req) returns (reply: Reply)
      requires Valid()
      modifies this`launched, this`cancelled, runList, tasks
      ensures Valid() && (Sees(), reply) == RunTaskSpec(old(Sees()), req)
      ensures reply ==
        if req.handler !in regList.data then NotRegistered
        else if Key(req.jobId) in old(runList.data) && !req.coverEarly then AlreadyRunning
        else Accepted
      ensures reply.Accepted? ==> Lists(Key(req.jobId), req, old(launched))
    {
      ghost var v := Sees();
      var listed;
      reply, listed := Admit(req);
      assert listed == (Key(req.jobId) in v.run) && (req.handler in regList.data) == (req.handler in v.reg);
      if reply.Accepted? {
        if listed {
          CoverAndLaunch(req);
        } else {
          LaunchHandler(req);
        }
      }
    }

    method KillTask(jobId: int) returns (reply: Reply)
      requires Valid()
      modifies this`cancelled, runList
      ensures Valid() && (Sees(), reply) == KillTaskSpec(old(Sees()), jobId)
      ensures reply == if Key(jobId) in old(runList.data) then Accepted else NotRunning
      ensures runList.data == old(runList.data) - {Key(jobId)}
      ensures reply.Accepted? && old(runList.data)[Key(jobId)].cancel.Some? ==>
        cancelled == old(cancelled) + {old(runList.data)[Key(jobId)].cancel.value}
      ensures reply.NotRunning? ==> Sees() == old(Sees())
    {
      var running := runList.Exists(FormatInt(jobId));
      if !running {
        return NotRunning;
      }
      var task := runList.Get(FormatInt(jobId));
      CancelOf(task);
      DelRunning(FormatInt(jobId));
      return Accepted;
    }

    method IdleBeat(jobId: int) returns (reply: Reply)
      requires Valid()
      ensures reply == if Key(jobId) in runList.data then AlreadyRunning else Accepted
    {
      var running := runList.Exists(FormatInt(jobId));
      return if running then AlreadyRunning else Accepted;
    }

    /** The list half of `callback`: the key is printed from the record as it is now. */
    method CallbackDel(t: Task)
      requires Valid() && t.ref < |tasks| && tasks[t.ref] == t
      modifies runList
      ensures Valid() && Sees() == Deleted(old(Sees()), Key(old(Sees()).recs[t.ref].id))
    {
      DelRunning(FormatInt(t.id));
    }
  }
}
