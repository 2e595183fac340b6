/** The streaming library as an object: one method per request. */
module StreamingLibrary {
  import opened Base
  import opened Registry

  class Library {
    const env: Env
    var broker: Broker

    constructor (env: Env)
      ensures this.env == env && broker == Broker(0, {}, map[], [])
    {
      this.env := env;
      this.broker := Broker(0, {}, map[], []);
    }

    method CreateConnection() returns (conn: Option<ConnId>)
      modifies this`broker
      ensures broker == Dial(env, old(broker))
      ensures conn == if Accepted(env, old(broker)) then Some(old(broker).conns) else None
    {
      conn := if Accepted(env, broker) then Some(broker.conns) else None;
      broker := Dial(env, broker);
    }

    method Subscribe(c: ConnId, t: Token, w: Wire) returns (sub: Option<Handle>)
      modifies this`broker
      ensures broker == SendSubscribe(env, old(broker), c, t, w) && sub == NewHandle(env, old(broker))
    {
      sub := NewHandle(env, broker);
      broker := SendSubscribe(env, broker, c, t, w);
    }

    method EndSubscription(h: Handle, unsubscribe: bool)
      modifies this`broker
      ensures broker == SendEndSub(env, old(broker), h, unsubscribe)
    {
      broker := SendEndSub(env, broker, h, unsubscribe);
    }

    method CloseConnection(c: ConnId)
      modifies this`broker
      ensures broker == SendCloseConn(env, old(broker), c)
    {
      broker := SendCloseConn(env, broker, c);
    }

    method Publish(c: ConnId) returns (ok: bool)
      modifies this`broker
      ensures broker == SendPublish(env, old(broker), c) && ok == Accepted(env, old(broker))
    {
      ok := Accepted(env, broker);
      broker := SendPublish(env, broker, c);
    }

    method Ping(c: ConnId) returns (ok: bool)
      modifies this`broker
      ensures broker == SendPing(env, old(broker), c) && ok == Accepted(env, old(broker))
    {
      ok := Accepted(env, broker);
      broker := SendPing(env, broker, c);
    }

    /** The next key of a dictionary enumeration. */
    function Pick(todo: set<Token>): Token
      reads this`broker
    {
      env.pick(|broker.log|, todo)
    }
  }
}
