/** The sending side of the TCP connections. */
module Networking {
  import opened VaultTypes

  /** Send and Close for every connection: the wire in the model. */
  class Network {
    var wire: Wire

    constructor ()
      ensures wire == Wire([], {})
    {
      wire := Wire([], {});
    }

    method Send(to: Connection, message: Message)
      modifies this
      ensures wire == old(wire).Send(to, message)
    {
      wire := wire.Send(to, message);
    }

    method Close(c: Connection)
      modifies this
      ensures wire == old(wire).Close(c)
    {
      wire := wire.Close(c);
    }

    /** The range-for that closes every connection of a registry. */
    method CloseAll(order: seq<Connection>)
      modifies this
      ensures wire == old(wire).CloseAll(Elements(order))
    {
      var i := 0;
      while i < |order|
        invariant 0 <= i <= |order|
        invariant wire == old(wire).CloseAll(Elements(order[..i]))
      {
        assert order[..i + 1] == order[..i] + [order[i]];
        assert Elements(order[..i + 1]) == Elements(order[..i]) + {order[i]};
        wire := wire.Close(order[i]);
        i := i + 1;
      }
      assert order[..|order|] == order;
    }

    /** The range-for that sends one message to a list of connections. */
    method SendAll(order: seq<Connection>, message: Message)
      modifies this
      ensures wire == old(wire).SendAll(order, message)
    {
      var i := 0;
      while i < |order|
        invariant 0 <= i <= |order|
        invariant wire == old(wire).SendAll(order[..i], message)
      {
        var before := wire.sent;
        wire := wire.Send(order[i], message);
        assert wire.sent == old(wire).SendAll(order[..i + 1], message).sent;
        i := i + 1;
      }
      assert order[..|order|] == order;
    }
  }
}
