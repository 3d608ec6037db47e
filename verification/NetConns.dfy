/** Sockets, as far as the tables are concerned. */
module NetConns {
  /** A net.Conn, as far as its being closed. */
  class NetConn {
    var open: bool

    constructor ()
      ensures open
    {
      open := true;
    }

    method Close()
      modifies this
      ensures !open
    {
      open := false;
    }
  }
}
