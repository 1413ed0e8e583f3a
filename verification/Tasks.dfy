/** Execution tasks and their results. */
module Tasks {
  import opened Prelude

  datatype Task = Task(id: int, code: string, source: string, instanceNo: int, totalInst: int)

  /** What the sandbox reports for one execution; `error` is the exception raised by the user's code. */
  datatype Execution = Execution(stdout: seq<string>, stderr: seq<string>, error: Option<string>)

  datatype TaskResult = TaskResult(task: Task, result: Option<Execution>, err: Option<string>)

  /** The zero value that a freshly made result slice is filled with. */
  const ZeroResult: TaskResult := TaskResult(Task(0, "", "", 0, 0), None, None)
}
