/** The payloads of the device protocol (internal/agent/client.go). */
module Protocol {

  datatype Option<+T> = None | Some(value: T)

  datatype Side = Stdout | Stderr

  datatype LogEntry = LogEntry(number: nat, side: Side, text: string)

  datatype Status = Succeeded | Failed | TimedOut | Cancelled

  datatype ResultPayload = ResultPayload(status: Status, exitCode: Option<int>, truncated: bool, error: string)

  datatype Payload =
    | LogsBody(token: string, entries: seq<LogEntry>)
    | ResultBody(token: string, result: ResultPayload)

  datatype Request = Request(path: string, body: Payload)

  function LogsPath(job: string): string { "/api/device/jobs/" + job + "/logs" }

  function ResultPath(job: string): string { "/api/device/jobs/" + job + "/result" }
}
