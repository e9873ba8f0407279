/** The publishing side of the message broker connection. The broker answers each publish on a
    connection at most once, at any later time; frames are read in arrival order. */
module MqClient {
  datatype Frame = Ack(tag: nat) | Nack(tag: nat) | OtherMethod | NoMethod

  predicate IsAnswer(f: Frame) { f.Ack? || f.Nack? }

  /** `unanswered` are the publishes on this connection the broker still owes an answer for. */
  class Connection {
    var unanswered: set<nat>
    var inbox: seq<Frame>

    constructor ()
      ensures unanswered == {} && inbox == []
    {
      unanswered, inbox := {}, [];
    }
  }

  /** Frames a broker can send: answers only to publishes it owes one, and one each. */
  predicate Possible(frames: seq<Frame>, owed: set<nat>) {
    && (forall i :: 0 <= i < |frames| && IsAnswer(frames[i]) ==> frames[i].tag in owed)
    && (forall i, j | 0 <= i < j < |frames| && IsAnswer(frames[i]) && IsAnswer(frames[j]) ::
          frames[i].tag != frames[j].tag)
  }

  class Client {
    var conn: Connection?

    /** Between publishes an open connection owes no answer and none lies unread in it. */
    ghost predicate Valid()
      reads this, conn
    {
      conn != null ==> conn.unanswered == {} && forall i :: 0 <= i < |conn.inbox| ==> !IsAnswer(conn.inbox[i])
    }

    constructor ()
      ensures Valid() && conn == null
    {
      conn := null;
    }

    method Close()
      modifies this
      ensures conn == null
    {
      conn := null;
    }

    /** `handshake` says whether opening, login, channel, exchange and confirm mode all succeed. */
    method EnsureConnected(handshake: bool) returns (ok: bool)
      modifies this
      ensures old(conn) != null ==> ok && conn == old(conn)
      ensures old(conn) == null ==> ok == handshake
      ensures old(conn) == null && ok ==> conn != null && fresh(conn) && conn.unanswered == {} && conn.inbox == []
      ensures !ok ==> conn == null
    {
      if conn != null {
        return true;
      }
      var c := new Connection();
      conn := c;
      if !handshake {
        Close();
        return false;
      }
      return true;
    }

    /** Reads the first frame there is; no frame before the timeout counts as a failure. */
    method WaitConfirm() returns (ok: bool)
      requires conn != null
      modifies conn
      ensures ok <==> old(conn.inbox) != [] && old(conn.inbox)[0].Ack?
      ensures conn.inbox == if old(conn.inbox) == [] then [] else old(conn.inbox)[1..]
      ensures conn.unanswered == old(conn.unanswered)
    {
      if conn.inbox == [] {
        return false;
      }
      var frame := conn.inbox[0];
      conn.inbox := conn.inbox[1..];
      return frame.Ack?;
    }

    /** True only if the broker acknowledged this very message; anything else closes the connection,
        so a late answer to it can never be taken for an answer to a later message. `tag` identifies
        the message, `arriving` is what the broker sends until the wait is over. */
    method Publish(tag: nat, handshake1: bool, handshake2: bool, sendOk: bool, arriving: seq<Frame>) returns (ok: bool)
      requires Valid()
      requires Possible(arriving, (if conn == null then {} else conn.unanswered) + {tag})
      modifies this, conn
      ensures Valid()
      ensures ok ==> Ack(tag) in arriving
      ensures ok <==> (old(conn) != null || handshake1 || handshake2) && sendOk
                      && (if old(conn) == null then [] else old(conn.inbox)) + arriving != []
                      && ((if old(conn) == null then [] else old(conn.inbox)) + arriving)[0].Ack?
      ensures !ok ==> conn == null
    {
      var connected := EnsureConnected(handshake1);
      if !connected {
        Close();
        connected := EnsureConnected(handshake2);
        if !connected {
          return false;
        }
      }
      if !sendOk {
        Close();
        return false;
      }
      conn.unanswered := conn.unanswered + {tag};
      // what the broker sends while the client waits
      ghost var before := conn.inbox;
      conn.inbox := conn.inbox + arriving;
      conn.unanswered := conn.unanswered - Answered(arriving);
      ok := WaitConfirm();
      if !ok {
        Close();
        return false;
      }
      assert (before + arriving)[0].Ack?;
      assert before == [];
      assert arriving[0] == Ack(tag);
      assert tag in Answered(arriving);
    }
  }

  function Answered(frames: seq<Frame>): set<nat> {
    set i | 0 <= i < |frames| && IsAnswer(frames[i]) :: frames[i].tag
  }
}
