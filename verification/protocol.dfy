/**
 * The master/worker control protocol as already-decoded values: a command
 * envelope carrying a family tag and a typed master/worker command.
 */
module Protocol {
  import opened Wrappers
  import opened SeepApi

  datatype CommandFamilyType = MASTERCOMMAND | WORKERCOMMAND

  datatype Status = OK | FAIL

  datatype BootstrapCommand = BootstrapCommand(ip: string, port: int, dataPort: int)
  datatype StageStatusCommand = StageStatusCommand(stageId: int, euId: int, status: Status, outputs: set<DataReference>)
  datatype DeadWorkerCommand = DeadWorkerCommand(workerId: int, reason: string)

  /** The type tags of the master/worker protocol. */
  datatype ProtocolType =
    | BOOTSTRAP | CRASH | CODE | MATERIALIZE_TASK | START_QUERY | STOP_QUERY | STAGE_STATUS | DEADWORKER

  /** A master/worker command; the type tag is determined by the payload it carries. */
  datatype MasterWorkerCommand =
    | Bootstrap(bootstrap: BootstrapCommand)
    | Crash
    | Code(queryFile: seq<bv8>, definitionClass: Option<string>, queryArgs: Option<seq<string>>, composeMethod: Option<string>)
    | MaterializeTask(mapping: map<int, EndPoint>)
    | StartQuery
    | StopQuery
    | StageStatus(stageStatus: StageStatusCommand)
    | DeadWorker(deadWorker: DeadWorkerCommand)
  {
    function Type(): ProtocolType {
      match this
      case Bootstrap(_) => BOOTSTRAP
      case Crash => CRASH
      case Code(_, _, _, _) => CODE
      case MaterializeTask(_) => MATERIALIZE_TASK
      case StartQuery => START_QUERY
      case StopQuery => STOP_QUERY
      case StageStatus(_) => STAGE_STATUS
      case DeadWorker(_) => DEADWORKER
    }
  }

  /** The envelope read off a control connection. */
  datatype Command = Command(familyType: CommandFamilyType, command: MasterWorkerCommand)

  /** A live channel to one execution unit. */
  datatype Connection = Connection(unitId: int)
}
