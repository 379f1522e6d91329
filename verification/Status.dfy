/** The statuses an execution session and its runtime move through. */
module Status {
  datatype SessionStatus = Created | Starting | Active | Stopping | Stopped | Failed
  datatype RuntimeStatus = Launching | Running | Terminating | Terminated | Crashed
}
