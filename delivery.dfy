/** How the agent reads the HTTP status of its three requests to the server
    (agent.py:203, 343, 378). Only the acceptance rule is modelled; the transport is not. */
module Delivery {
  /** The statuses that `register_agent` and `send_event` count as success. */
  const SuccessStatuses: seq<int> := [200, 201]

  /** `register_agent`: status in [200, 201]. */
  function RegistrationAccepted(status: int): (ok: bool)
    ensures ok <==> status == 200 || status == 201
  {
    status in SuccessStatuses
  }

  /** `send_event`: status in [200, 201]. */
  function EventAccepted(status: int): (ok: bool)
    ensures ok <==> status == 200 || status == 201
  {
    status in SuccessStatuses
  }

  /** `send_heartbeat`: status == 200 only. */
  function HeartbeatAccepted(status: int): (ok: bool)
    ensures ok ==> EventAccepted(status)
  {
    status == 200
  }

  /** Registration and events accept the same statuses; a heartbeat accepts a strict
      subset of them, refusing 201 Created. */
  lemma AcceptanceRules(status: int)
    ensures RegistrationAccepted(status) <==> EventAccepted(status)
    ensures HeartbeatAccepted(status) <==> EventAccepted(status) && status != 201
    ensures EventAccepted(201) && !HeartbeatAccepted(201)
  {
  }
}
