/**
 * The task catalog and the job substrate it registers with.
 *
 * The PlanLlama client is modelled by what the agent observes of it: a log
 * of the workers registered with `work`, and a fixed reply function
 * standing for the remote substrate's answer to `request`.
 */
module Tasks {
  import opened Wrappers
  import opened Json

  /** `{name, description}`, the part of a task the prompt shows. */
  datatype TaskDescription = TaskDescription(name: string, description: string)

  /** The two task functions of the catalog. */
  datatype TaskFunc = FetchData | ProcessData

  /** Running a task function on its payload: both catalog functions return it as it is. */
  function Perform(func: TaskFunc, payload: Option<Json>): Option<Json>
  {
    match func
    case FetchData => payload
    case ProcessData => payload
  }

  /** A job as a worker receives it; `data` is the payload the requester sent. */
  datatype Job = Job(data: Option<Json>)

  /** The handler registered with `work(name, handler)`, which wraps `func`. */
  datatype Worker = Worker(name: string, func: TaskFunc)

  /** What the wrapping handler returns for a job: `func(job.data)`, passed on untouched. */
  function Handle(w: Worker, job: Job): (r: Option<Json>)
    ensures r == job.data
  {
    Perform(w.func, job.data)
  }

  /** One `request(task, payload)` sent to the substrate. */
  datatype Request = Request(task: Option<Json>, payload: Option<Json>)

  /** How the substrate settles a request: a result, or a rejection that aborts the caller. */
  datatype Reply = Resolved(result: Option<Json>) | Rejected(error: string)

  class PlanLlama {
    /** Workers registered with `work`, oldest first. */
    var workers: seq<Worker>
    /** The substrate's answer to `request(task, payload)`, awaited until it settles. */
    const respond: Request -> Reply

    constructor (respond: Request -> Reply)
      ensures workers == [] && this.respond == respond
    {
      workers := [];
      this.respond := respond;
    }

    /** `work(name, handler)`: register one worker. */
    method Work(w: Worker)
      modifies this
      ensures workers == old(workers) + [w]
    {
      workers := workers + [w];
    }
  }

  /** `planLlamaTask`: register a worker under `name`, then describe it. */
  method PlanLlamaTask(planLlama: PlanLlama, name: string, description: string, func: TaskFunc)
    returns (d: TaskDescription)
    modifies planLlama
    ensures d == TaskDescription(name, description)
    ensures planLlama.workers == old(planLlama.workers) + [Worker(name, func)]
  {
    planLlama.Work(Worker(name, func));
    d := TaskDescription(name, description);
  }

  /**
   * The substrate runs each request for a registered task name with that
   * worker's handler, on a job whose data is the request's payload, and
   * resolves with what the handler returns.
   */
  ghost predicate Routes(respond: Request -> Reply, workers: seq<Worker>)
  {
    forall w, payload :: w in workers ==>
      respond(Request(Some(JString(w.name)), payload)) == Resolved(Handle(w, Job(payload)))
  }

  /** The fixed catalog, in order. */
  function Catalog(): seq<TaskDescription>
  {
    [ TaskDescription("fetch_data", "Fetch data from a specified source."),
      TaskDescription("process_data", "Process previously fetched data.") ]
  }

  /** The workers the catalog registers, in registration order. */
  function CatalogWorkers(): seq<Worker>
  {
    [Worker("fetch_data", FetchData), Worker("process_data", ProcessData)]
  }

  /** `initTasks`: build the catalog, registering each worker as its entry is built. */
  method InitTasks(planLlama: PlanLlama) returns (tasks: seq<TaskDescription>)
    modifies planLlama
    ensures tasks == Catalog()
    ensures planLlama.workers == old(planLlama.workers) + CatalogWorkers()
  {
    var fetch := PlanLlamaTask(planLlama, "fetch_data", "Fetch data from a specified source.", FetchData);
    var process := PlanLlamaTask(planLlama, "process_data", "Process previously fetched data.", ProcessData);
    tasks := [fetch, process];
  }

  /** The names of a list of task descriptions, in order. */
  function Names(tasks: seq<TaskDescription>): (r: seq<string>)
    ensures |r| == |tasks| && forall i :: 0 <= i < |tasks| ==> r[i] == tasks[i].name
  {
    if |tasks| == 0 then [] else [tasks[0].name] + Names(tasks[1..])
  }

  /**
   * The catalog has two entries with distinct names; registration order is
   * catalog order; and every registered worker hands back the payload of
   * the job it is given, an empty payload included.
   */
  lemma CatalogFacts()
    ensures |Catalog()| == 2 && Names(Catalog()) == ["fetch_data", "process_data"]
    ensures forall i, j :: 0 <= i < j < |Catalog()| ==> Catalog()[i].name != Catalog()[j].name
    ensures |CatalogWorkers()| == |Catalog()|
    ensures forall i :: 0 <= i < |Catalog()| ==> CatalogWorkers()[i].name == Catalog()[i].name
    ensures forall w, job :: w in CatalogWorkers() ==> Handle(w, job) == job.data
  {
  }

  /**
   * When the substrate routes requests to the catalog's workers, a request
   * for either catalog task resolves with its own payload.
   */
  lemma {:induction false} CatalogTaskEchoes(respond: Request -> Reply, name: string, payload: Option<Json>)
    requires Routes(respond, CatalogWorkers())
    requires name in Names(Catalog())
    ensures respond(Request(Some(JString(name)), payload)) == Resolved(payload)
  {
    CatalogFacts();
    var k :| 0 <= k < |Catalog()| && Names(Catalog())[k] == name;
    var w := CatalogWorkers()[k];
    assert w in CatalogWorkers() && w.name == name;
    assert Handle(w, Job(payload)) == payload;
  }
}
