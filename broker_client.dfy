/**
 * An abstract broker client standing in for `paho.mqtt.client.Client`.
 * It keeps the settings the connector builds it with and a log of every
 * call the connector makes on it; whether a connect or a publish succeeds
 * is an input of the call, not something the model decides.
 */
module BrokerClient {
  import opened Values

  datatype Call =
    | Connect(host: string, port: int, keepalive: int)
    | Subscribe(topic: string, qos: int)
    | Publish(topic: string, payload: Value, qos: int)
    | LoopStart
    | LoopForever
    | Disconnect

  datatype Credentials = Credentials(username: string, password: string)

  /** What a `publish` call does: raise, or return a message info with a return code and a message id. */
  datatype PublishOutcome = PublishRaises | MessageInfo(rc: int, mid: int)

  class Client {
    const cleanSession: bool
    const transport: string
    var credentials: Option<Credentials>
    /** Whether `on_message` and `on_connect` route to the connector's handlers. */
    var handlersInstalled: bool
    var log: seq<Call>

    constructor (cleanSession: bool, transport: string)
      ensures this.cleanSession == cleanSession && this.transport == transport
      ensures credentials == None && !handlersInstalled && log == []
    {
      this.cleanSession := cleanSession;
      this.transport := transport;
      credentials := None;
      handlersInstalled := false;
      log := [];
    }

    /** `username_pw_set`. */
    method SetCredentials(username: string, password: string)
      modifies this`credentials
      ensures credentials == Some(Credentials(username, password))
    {
      credentials := Some(Credentials(username, password));
    }

    method InstallHandlers()
      modifies this`handlersInstalled
      ensures handlersInstalled
    {
      handlersInstalled := true;
    }

    /** A connect attempt; `raises` says whether it raised. */
    method Connect(host: string, port: int, keepalive: int, raises: bool) returns (connected: bool)
      modifies this`log
      ensures log == old(log) + [Call.Connect(host, port, keepalive)]
      ensures connected == !raises
    {
      log := log + [Call.Connect(host, port, keepalive)];
      connected := !raises;
    }

    method Subscribe(topic: string, qos: int)
      modifies this`log
      ensures log == old(log) + [Call.Subscribe(topic, qos)]
    {
      log := log + [Call.Subscribe(topic, qos)];
    }

    /** A publish attempt; `outcome` is what the client does with it. */
    method Publish(topic: string, payload: Value, qos: int, outcome: PublishOutcome) returns (info: PublishOutcome)
      modifies this`log
      ensures log == old(log) + [Call.Publish(topic, payload, qos)]
      ensures info == outcome
    {
      log := log + [Call.Publish(topic, payload, qos)];
      info := outcome;
    }

    method LoopStart()
      modifies this`log
      ensures log == old(log) + [Call.LoopStart]
    {
      log := log + [Call.LoopStart];
    }

    /** `loop_forever`: the model records the call; the real one does not return. */
    method LoopForever()
      modifies this`log
      ensures log == old(log) + [Call.LoopForever]
    {
      log := log + [Call.LoopForever];
    }

    method Disconnect()
      modifies this`log
      ensures log == old(log) + [Call.Disconnect]
    {
      log := log + [Call.Disconnect];
    }
  }
}
