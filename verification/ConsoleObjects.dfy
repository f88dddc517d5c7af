/** The client and the server side of a console connection, with nonces updated in place. */
module ConsoleObjects {
  import opened Basics
  import opened Nonces
  import opened Consoles

  /** The bytes under way in both directions. */
  class Connection {
    var toServer: Text
    var toClient: Text
    var closed: bool

    constructor ()
      ensures toServer == [] && toClient == [] && !closed
    {
      toServer, toClient, closed := [], [], false;
    }
  }

  /** The two `copy` statements that build a reading or writing nonce. */
  method CopyHalves(nonce: array<Byte>, first: array<Byte>, second: array<Byte>)
    requires nonce.Length == first.Length == second.Length == NONCE_LEN
    requires nonce != first && nonce != second
    modifies nonce
    ensures nonce[..] == Halves(first[..], second[..])
  {
    forall i | 0 <= i < HALF_NONCE {
      nonce[i] := first[i];
    }
    forall i | HALF_NONCE <= i < NONCE_LEN {
      nonce[i] := second[i];
    }
  }

  /** The nonce has the first twelve bytes of one that was presented, and the last twelve of the other. */
  ghost predicate Mixes(nonce: seq<Byte>, first: seq<Byte>, last: seq<Byte>) {
    && |nonce| == |first| == |last| == 24
    && (forall i :: 0 <= i < 12 ==> nonce[i] == first[i])
    && (forall i :: 12 <= i < 24 ==> nonce[i] == last[i])
  }

  lemma HalvesMix(cNonce: Nonce, sNonce: Nonce)
    ensures Mixes(ToServer(cNonce, sNonce), sNonce, cNonce) && Mixes(ToClient(cNonce, sNonce), cNonce, sNonce)
  {
  }

  type Handlers = map<Text, Text -> Text>

  function Response(handlers: Handlers, cmd: Text): Text {
    if cmd in handlers then handlers[cmd](cmd) else []
  }

  /** The serving of one connection. */
  class ServerSession {
    const box: SecretBox
    const key: SecretKey
    const handlers: Handlers
    const rNonce: array<Byte>
    const wNonce: array<Byte>

    ghost predicate Valid() {
      rNonce.Length == wNonce.Length == NONCE_LEN && rNonce != wNonce
    }

    constructor (box: SecretBox, key: SecretKey, handlers: Handlers)
      ensures Valid() && this.box == box && this.key == key && this.handlers == handlers
      ensures fresh(rNonce) && fresh(wNonce)
    {
      this.box, this.key, this.handlers := box, key, handlers;
      rNonce, wNonce := new Byte[NONCE_LEN](_ => 0), new Byte[NONCE_LEN](_ => 0);
    }

    /** The handshake, with the random nonce that the server draws. */
    method Accept(conn: Connection, random: Nonce) returns (ok: bool)
      requires Valid()
      modifies conn, rNonce, wNonce
      ensures ok <==> |old(conn.toServer)| >= NONCE_LEN
      ensures ok ==>
                var cNonce := old(conn.toServer)[..NONCE_LEN];
                && conn.toServer == old(conn.toServer)[NONCE_LEN..] && conn.toClient == old(conn.toClient) + random
                && conn.closed == old(conn.closed)
                && Mixes(rNonce[..], random, cNonce) && Mixes(wNonce[..], cNonce, random)
                && rNonce[..] == ToServer(cNonce, random) && wNonce[..] == ToClient(cNonce, random)
    {
      if |conn.toServer| < NONCE_LEN {
        return false;
      }
      var presented := conn.toServer[..NONCE_LEN];
      var cNonce := new Byte[NONCE_LEN](i requires 0 <= i < NONCE_LEN => presented[i]);
      assert cNonce[..] == presented;
      var sNonce := new Byte[NONCE_LEN](i requires 0 <= i < NONCE_LEN => random[i]);
      assert sNonce[..] == random;
      conn.toServer, conn.toClient := conn.toServer[NONCE_LEN..], conn.toClient + random;
      CopyHalves(rNonce, sNonce, cNonce);
      CopyHalves(wNonce, cNonce, sNonce);
      return true;
    }

    /** One turn of the command loop. It blocks while no whole frame has arrived. */
    method Serve(conn: Connection)
      requires Valid()
      modifies conn, rNonce, wNonce
      ensures match ReadFrame(box, key, old(rNonce[..]), old(conn.toServer))
              case Waiting =>
                && conn.toServer == old(conn.toServer) && conn.toClient == old(conn.toClient)
                && conn.closed == old(conn.closed) && rNonce[..] == old(rNonce[..]) && wNonce[..] == old(wNonce[..])
              case Broken => conn.closed && conn.toClient == old(conn.toClient)
              case Got(cmd, rest) =>
                && conn.toServer == rest && conn.closed == old(conn.closed)
                && conn.toClient == old(conn.toClient) + Frame(box, key, old(wNonce[..]), Response(handlers, cmd))
                && rNonce[..] == Incremented(old(rNonce[..])) && wNonce[..] == Incremented(old(wNonce[..]))
    {
      if |conn.toServer| < 4 || |conn.toServer| < 4 + Uint32(conn.toServer[..4]) {
        return;
      }
      var cmdLen := Uint32(conn.toServer[..4]);
      var encryptedCmd := conn.toServer[4..4 + cmdLen];
      conn.toServer := conn.toServer[4 + cmdLen..];
      var decrypted := box.open(encryptedCmd, rNonce[..], key);
      if decrypted.None? {
        conn.closed := true;
        return;
      }
      IncrementNonce(rNonce);
      var response := Response(handlers, decrypted.value);
      var encrypted := box.seal(response, wNonce[..], key);
      IncrementNonce(wNonce);
      conn.toClient := conn.toClient + PutUint32(|encrypted|);
      conn.toClient := conn.toClient + encrypted;
      assert conn.toClient == old(conn.toClient) + (PutUint32(|encrypted|) + encrypted);
    }
  }

  class Client {
    const box: SecretBox
    const key: SecretKey
    const cNonce: array<Byte>
    const sNonce: array<Byte>
    const wNonce: array<Byte>
    const rNonce: array<Byte>

    ghost predicate Valid() {
      && cNonce.Length == sNonce.Length == wNonce.Length == rNonce.Length == NONCE_LEN
      && cNonce != sNonce && wNonce != cNonce && wNonce != sNonce && rNonce != cNonce && rNonce != sNonce
      && rNonce != wNonce
    }

    constructor (box: SecretBox, key: SecretKey, random: Nonce)
      ensures Valid() && this.box == box && this.key == key && cNonce[..] == random
      ensures fresh(cNonce) && fresh(sNonce) && fresh(wNonce) && fresh(rNonce)
    {
      this.box, this.key := box, key;
      cNonce := new Byte[NONCE_LEN](i requires 0 <= i < NONCE_LEN => random[i]);
      sNonce := new Byte[NONCE_LEN](_ => 0);
      wNonce := new Byte[NONCE_LEN](_ => 0);
      rNonce := new Byte[NONCE_LEN](_ => 0);
    }

    /** The nonces of both sides agree pairwise, and nothing is under way. */
    ghost predicate Lockstep(conn: Connection, server: ServerSession)
      requires Valid() && server.Valid()
      reads conn, wNonce, rNonce, server.wNonce, server.rNonce
    {
      && box == server.box && key == server.key
      && wNonce[..] == server.rNonce[..] && rNonce[..] == server.wNonce[..]
      && conn.toServer == [] && conn.toClient == [] && !conn.closed
    }

    ghost predicate Apart(server: ServerSession) {
      server.wNonce !in {cNonce, sNonce, wNonce, rNonce} && server.rNonce !in {cNonce, sNonce, wNonce, rNonce}
    }

    method Encrypt(cmd: Text) returns (encrypted: Text)
      requires Valid()
      modifies wNonce
      ensures encrypted == box.seal(cmd, old(wNonce[..]), key) && wNonce[..] == Incremented(old(wNonce[..]))
    {
      encrypted := box.seal(cmd, wNonce[..], key);
      IncrementNonce(wNonce);
    }

    method Decrypt(data: Text) returns (decrypted: Option<Text>)
      requires Valid()
      modifies rNonce
      ensures decrypted == box.open(data, old(rNonce[..]), key)
      ensures rNonce[..] == if decrypted.Some? then Incremented(old(rNonce[..])) else old(rNonce[..])
    {
      decrypted := box.open(data, rNonce[..], key);
      if decrypted.Some? {
        IncrementNonce(rNonce);
      }
    }

    /** The second half of `sendCommand`. */
    method ReceiveResponse(conn: Connection) returns (response: Option<Text>)
      requires Valid()
      modifies conn, rNonce
      ensures match ReadFrame(box, key, old(rNonce[..]), old(conn.toClient))
              case Got(m, rest) =>
                response == Some(m) && conn.toClient == rest && rNonce[..] == Incremented(old(rNonce[..]))
              case _ => response == None
      ensures conn.toServer == old(conn.toServer) && conn.closed == old(conn.closed)
    {
      if |conn.toClient| < 4 || |conn.toClient| < 4 + Uint32(conn.toClient[..4]) {
        return None;
      }
      var receiveLen := Uint32(conn.toClient[..4]);
      var receiveBuffer := conn.toClient[4..4 + receiveLen];
      conn.toClient := conn.toClient[4 + receiveLen..];
      response := Decrypt(receiveBuffer);
    }

    /** `sendCommand`; the server takes its turn while the client waits for the response. */
    method SendCommand(conn: Connection, server: ServerSession, cmd: Text) returns (response: Option<Text>)
      requires Valid() && server.Valid() && Apart(server) && Lockstep(conn, server) && Sound(box)
      modifies conn, wNonce, rNonce, server.wNonce, server.rNonce
      ensures Fits(cmd) && Fits(Response(server.handlers, cmd)) ==>
                && response == Some(Response(server.handlers, cmd))
                && Lockstep(conn, server)
                && wNonce[..] == Incremented(old(wNonce[..])) && rNonce[..] == Incremented(old(rNonce[..]))
    {
      hide ReadFrame, Sound, Incremented, PutUint32;
      var encoded := Encrypt(cmd);
      conn.toServer := conn.toServer + PutUint32(|encoded|);
      conn.toServer := conn.toServer + encoded;
      assert conn.toServer == Frame(box, key, old(wNonce[..]), cmd) + [];
      FrameReadBackIff(box, key, old(wNonce[..]), cmd, []);
      server.Serve(conn);
      ghost var answer := Response(server.handlers, cmd);
      FrameReadBackIff(box, key, old(rNonce[..]), answer, []);
      hide Frame, Response, Fits;
      assert Fits(cmd) ==> conn.toClient == Frame(box, key, old(rNonce[..]), answer) + [];
      response := ReceiveResponse(conn);
    }

    /** The first part of `connect`: client and server present their nonces. Writing, the client starts with the
        server's half and goes on with its own, and the other way round for reading. */
    method ShakeHands(conn: Connection, server: ServerSession, random: Nonce)
      requires Valid() && server.Valid() && Apart(server) && box == server.box && key == server.key
      requires conn.toServer == [] && conn.toClient == [] && !conn.closed
      modifies conn, sNonce, wNonce, rNonce, server.wNonce, server.rNonce
      ensures Mixes(wNonce[..], random, cNonce[..]) && Mixes(rNonce[..], cNonce[..], random)
      ensures Mixes(server.rNonce[..], random, cNonce[..]) && Mixes(server.wNonce[..], cNonce[..], random)
      ensures sNonce[..] == random && Lockstep(conn, server)
      ensures wNonce[..] == ToServer(cNonce[..], random) && rNonce[..] == ToClient(cNonce[..], random)
    {
      conn.toServer := conn.toServer + cNonce[..];
      assert conn.toServer[..NONCE_LEN] == cNonce[..];
      var accepted := server.Accept(conn, random);
      forall i | 0 <= i < NONCE_LEN {
        sNonce[i] := conn.toClient[i];
      }
      conn.toClient := conn.toClient[NONCE_LEN..];
      assert sNonce[..] == random;
      CopyHalves(rNonce, cNonce, sNonce);
      CopyHalves(wNonce, sNonce, cNonce);
      assert wNonce[..] == ToServer(cNonce[..], random) && rNonce[..] == ToClient(cNonce[..], random);
    }

    /** `connect`: the handshake and the empty test command. */
    method Connect(conn: Connection, server: ServerSession, random: Nonce) returns (ok: bool)
      requires Valid() && server.Valid() && Apart(server) && Sound(box) && box == server.box && key == server.key
      requires conn.toServer == [] && conn.toClient == [] && !conn.closed
      modifies conn, sNonce, wNonce, rNonce, server.wNonce, server.rNonce
      ensures Fits(Response(server.handlers, [])) ==>
                && (ok <==> Response(server.handlers, []) == [])
                && Lockstep(conn, server)
                && (exists first: Nonce :: Mixes(first, random, cNonce[..]) && wNonce[..] == After(first, 1))
                && (exists first: Nonce :: Mixes(first, cNonce[..], random) && rNonce[..] == After(first, 1))
                && wNonce[..] == After(ToServer(cNonce[..], random), 1)
                && rNonce[..] == After(ToClient(cNonce[..], random), 1)
    {
      hide Halves, ToServer, ToClient, Sound, Incremented, Mixes;
      ShakeHands(conn, server, random);
      ghost var up: Nonce, down: Nonce := wNonce[..], rNonce[..];
      assert Fits([]);
      var response := SendCommand(conn, server, []);
      ok := response == Some([]);
      assert Mixes(up, random, cNonce[..]) && After(up, 1) == Incremented(up);
      assert Mixes(down, cNonce[..], random) && After(down, 1) == Incremented(down);
    }

    /** A whole session: the connection, and then one command after the other. */
    method Session(conn: Connection, server: ServerSession, random: Nonce, cmds: seq<Text>)
        returns (ok: bool, responses: seq<Option<Text>>)
      requires Valid() && server.Valid() && Apart(server) && Sound(box) && box == server.box && key == server.key
      requires conn.toServer == [] && conn.toClient == [] && !conn.closed
      requires Fits(Response(server.handlers, []))
      requires forall k :: 0 <= k < |cmds| ==> Fits(cmds[k]) && Fits(Response(server.handlers, cmds[k]))
      modifies conn, sNonce, wNonce, rNonce, server.wNonce, server.rNonce
      ensures ok <==> Response(server.handlers, []) == []
      ensures ok ==>
                && |responses| == |cmds|
                && (forall k :: 0 <= k < |cmds| ==> responses[k] == Some(Response(server.handlers, cmds[k])))
                && Lockstep(conn, server)
                && (exists first: Nonce :: Mixes(first, random, cNonce[..]) && wNonce[..] == After(first, |cmds| + 1))
                && (exists first: Nonce :: Mixes(first, cNonce[..], random) && rNonce[..] == After(first, |cmds| + 1))
                && wNonce[..] == After(ToServer(cNonce[..], random), |cmds| + 1)
                && rNonce[..] == After(ToClient(cNonce[..], random), |cmds| + 1)
    {
      HalvesMix(cNonce[..], random);
      hide ToServer, ToClient, Sound, Response, Fits, Incremented;
      responses := [];
      ok := Connect(conn, server, random);
      if !ok {
        return;
      }
      var i := 0;
      while i < |cmds|
        invariant i == |responses| <= |cmds| && Lockstep(conn, server)
        invariant forall k :: 0 <= k < i ==> responses[k] == Some(Response(server.handlers, cmds[k]))
        invariant wNonce[..] == After(ToServer(cNonce[..], random), i + 1)
        invariant rNonce[..] == After(ToClient(cNonce[..], random), i + 1)
      {
        var response := SendCommand(conn, server, cmds[i]);
        responses := responses + [response];
        i := i + 1;
      }
    }
  }
}
