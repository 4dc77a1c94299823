/**
 * The robot control server of server/control/control.py.
 *
 * The robot is in one of two modes; joystick input is accepted only in
 * remote mode. Clients announce themselves and ping; the server remembers
 * when each was last seen and a periodic sweep forgets those not seen for
 * more than ten seconds. Time is an input, in integer milliseconds.
 */
module Control {
  import opened Wrappers
  import opened Text

  datatype Mode = Autonomous | Remote

  function ModeName(m: Mode): string
  {
    match m
    case Autonomous => "autonomous"
    case Remote => "remote"
  }

  /** The request body's mode field, as the enum accepts it. */
  function ParseMode(s: string): (r: Option<Mode>)
    ensures r.Some? <==> (s == "autonomous" || s == "remote")
  {
    if s == "autonomous" then Some(Autonomous)
    else if s == "remote" then Some(Remote)
    else None
  }

  lemma ParseModeName(m: Mode)
    ensures ParseMode(ModeName(m)) == Some(m)
  {
  }

  const TicksPerSecond: int := 1000

  /** A client is forgotten once it has not been seen for more than this long. */
  const ClientTimeout: int := 10 * TicksPerSecond

  /** The clients a sweep at `now` keeps: those seen at most ten seconds ago. */
  function Unexpired(clients: map<string, int>, now: int): (r: map<string, int>)
    ensures forall id :: id in r <==> id in clients && now - clients[id] <= ClientTimeout
    ensures forall id :: id in r ==> r[id] == clients[id]
  {
    map id | id in clients && now - clients[id] <= ClientTimeout :: clients[id]
  }

  /** A second sweep at the same time removes nothing more. */
  lemma UnexpiredIdempotent(clients: map<string, int>, now: int)
    ensures Unexpired(Unexpired(clients, now), now) == Unexpired(clients, now)
  {
  }

  /** A client that pinged at time t survives every sweep up to ten seconds later. */
  lemma PingKeepsClient(clients: map<string, int>, id: string, t: int, now: int)
    requires now <= t + ClientTimeout
    ensures id in Unexpired(clients[id := t], now)
  {
  }

  /** A client id: the client's name, an underscore and the whole seconds of the clock. */
  function ClientId(name: string, now: nat): (id: string)
    ensures |id| > |name| + 1 && id[..|name|] == name && id[|name|] == '_'
    ensures AllDigits(id[|name| + 1..])
  {
    name + "_" + NatToString(now / TicksPerSecond)
  }

  /**
   * Ids name the client and the second it connected: equal ids mean the same
   * name, connecting in the same second.
   */
  lemma ClientIdInjective(n1: string, t1: nat, n2: string, t2: nat)
    requires ClientId(n1, t1) == ClientId(n2, t2)
    ensures n1 == n2 && t1 / TicksPerSecond == t2 / TicksPerSecond
  {
    var id := ClientId(n1, t1);
    var d1 := NatToString(t1 / TicksPerSecond);
    var d2 := NatToString(t2 / TicksPerSecond);
    assert id == n1 + "_" + d1 && id == n2 + "_" + d2;
    if |d1| != |d2| {
      assert false;
    } else {
      assert n1 == id[..|n1|] == n2;
      assert d1 == id[|n1| + 1..] == d2;
      NatToStringInjective(t1 / TicksPerSecond, t2 / TicksPerSecond);
    }
  }

  datatype HttpError = HttpError(code: int, detail: string)

  /** The fields of a joystick message the server looks at. */
  datatype JoystickData = JoystickData(clientId: string, dataType: string)

  datatype JoystickReply = JoystickReply(status: string, dataType: string)

  datatype ModeChange = ModeChange(previous: Mode, current: Mode)

  class RobotServer {
    var mode: Mode
    var clients: map<string, int>
    /** The order in which ids were first added, as a dict keeps it. */
    var order: seq<string>

    ghost predicate Valid()
      reads this
    {
      (forall id :: id in clients <==> id in order) && Distinct(order)
    }

    constructor ()
      ensures Valid() && mode == Autonomous && clients == map[]
    {
      mode, clients, order := Autonomous, map[], [];
    }

    /** POST /mode: any mode may follow any other. */
    method ChangeMode(requested: Mode, clientId: string) returns (r: ModeChange)
      modifies this`mode
      ensures mode == requested && r == ModeChange(old(mode), requested)
    {
      r := ModeChange(mode, requested);
      mode := requested;
    }

    /** POST /joystick: refused unless the robot is in remote mode. */
    method ReceiveJoystick(data: JoystickData) returns (r: Result<JoystickReply, HttpError>)
      ensures r.Err? <==> mode != Remote
      ensures r.Err? ==> r.error == HttpError(403, "Joystick data only accepted in REMOTE mode")
      ensures r.Ok? ==> r.value == JoystickReply("received", data.dataType)
    {
      if mode != Remote {
        return Err(HttpError(403, "Joystick data only accepted in REMOTE mode"));
      }
      return Ok(JoystickReply("received", data.dataType));
    }

    /** Record that a client was seen now. */
    method Touch(id: string, now: int)
      requires Valid()
      modifies this`clients, this`order
      ensures Valid() && clients == old(clients)[id := now]
      ensures order == if id in old(clients) then old(order) else old(order) + [id]
    {
      if id !in clients {
        order := order + [id];
      }
      clients := clients[id := now];
    }

    /** POST /ping: only this client's last-seen time changes. */
    method ClientPing(id: string, now: int) returns (current: Mode)
      requires Valid()
      modifies this`clients, this`order
      ensures Valid() && clients == old(clients)[id := now] && current == mode
    {
      Touch(id, now);
      current := mode;
    }

    /** POST /connect: register the client under a fresh id built from its name and the clock. */
    method ConnectClient(name: string, now: nat) returns (id: string, current: Mode)
      requires Valid()
      modifies this`clients, this`order
      ensures Valid() && id == ClientId(name, now) && clients == old(clients)[id := now] && current == mode
    {
      id := name + "_" + NatToString(now / TicksPerSecond);
      Touch(id, now);
      current := mode;
    }

    /** GET / and GET /status: the mode and how many clients are registered. */
    method Status() returns (current: Mode, count: nat)
      ensures current == mode && count == |clients|
    {
      return mode, |clients|;
    }

    /** One pass of cleanup_clients: list the expired ids in dict order, then delete them. */
    method CleanupPass(now: int)
      requires Valid()
      modifies this`clients, this`order
      ensures Valid() && clients == Unexpired(old(clients), now)
    {
      var expired: seq<string> := [];
      for k := 0 to |order|
        invariant forall id :: id in expired <==> id in order[..k] && now - clients[id] > ClientTimeout
      {
        assert order[..k + 1] == order[..k] + [order[k]];
        if now - clients[order[k]] > ClientTimeout {
          expired := expired + [order[k]];
        }
      }
      assert order[..|order|] == order;
      ghost var before := clients;
      for k := 0 to |expired|
        invariant Valid()
        invariant forall id :: id in clients <==> id in before && id !in expired[..k]
        invariant forall id :: id in clients ==> clients[id] == before[id]
      {
        assert expired[..k + 1] == expired[..k] + [expired[k]];
        if expired[k] in clients {
          order := Remove(order, expired[k]);
        }
        clients := clients - {expired[k]};
      }
      assert expired[..|expired|] == expired;
    }
  }

  /** The sequence without x. */
  function Remove(s: seq<string>, x: string): (r: seq<string>)
    ensures forall y :: y in r <==> y in s && y != x
    ensures Distinct(s) ==> Distinct(r)
  {
    if s == [] then []
    else if s[0] == x then Remove(s[1..], x)
    else
      var rest := Remove(s[1..], x);
      assert Distinct(s) ==> s[0] !in s[1..];
      [s[0]] + rest
  }

  predicate Distinct(s: seq<string>)
  {
    forall a, b :: 0 <= a < b < |s| ==> s[a] != s[b]
  }
}
