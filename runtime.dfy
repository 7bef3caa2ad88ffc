/** The process state the jobs share: the environment dictionary they read
  * and write in place, and a log of what they ask of the outside world. */
module Runtime {
  import opened Wrappers
  import Manifest

  /** One externally visible step of a job. */
  datatype Effect =
    | ReadSignal(key: string)                                  // one read of the readiness variable
    | Sleep(seconds: nat)                                      // asyncio.sleep
    | Create(namespace: string, body: Manifest.Deployment)     // create_namespaced_deployment
    | Watch(watchNamespace: Option<string>, watchName: Option<string>) // a watch stream opened on one name
    | SetFlag(key: string)                                     // os.environ[key] = "True"
    | Delete(namespace: string, name: string)                  // delete_namespaced_deployment
    | WriteSummary(failedJobs: seq<string>)                    // set_summary listing failed jobs

  /** `os.getenv(key)`. */
  function Getenv(env: map<string, string>, key: string): Option<string> {
    if key in env then Some(env[key]) else None
  }

  /** `os.getenv(key, default)`. */
  function GetenvOr(env: map<string, string>, key: string, default: string): string {
    if key in env then env[key] else default
  }

  /** The Python process: `os.environ`, updated in place, and the log of the
    * calls made so far. */
  class Process {
    var env: map<string, string>
    ghost var trace: seq<Effect>
  }
}
