/**
 * Stand-in for everything outside the client: the wall clock (integer
 * milliseconds), TCP connects, sleeping, and HTTP POSTs with Digest
 * authentication. The outcome of the n-th connect attempt and the reply to the
 * n-th POST are supplied up front, as total functions of n.
 */
module Network {
  import opened Extract
  import opened Wsman

  /** errno of a refused TCP connection (Linux value). */
  const ECONNREFUSED: int := 111

  /** Result of one `socket.create_connection`. */
  datatype Connect = Connected | Failed(errno: int)

  /** A scripted connect attempt: its result and the milliseconds it took. */
  datatype Attempt = Attempt(outcome: Connect, took: nat)

  /** A scripted HTTP exchange: status and parsed body, or a failure of the transport itself. */
  datatype Reply = Answered(status: int, body: Body) | Broken

  /** The target and per-attempt timeout (seconds) of one connect attempt. */
  datatype Dial = Dial(host: string, port: nat, timeoutSec: int)

  /** Clock reading, connect attempts made, POSTs made. */
  datatype NetState = NetState(now: int, tries: nat, posts: nat)

  /** `later` is `earlier` followed only by attempts to `host:port` with per-attempt timeout `t`. */
  ghost predicate DialedOnly(earlier: seq<Dial>, later: seq<Dial>, host: string, port: nat, t: int) {
    |earlier| <= |later| && later[..|earlier|] == earlier &&
    forall k :: |earlier| <= k < |later| ==> later[k] == Dial(host, port, t)
  }

  class Net {
    const connects: nat -> Attempt
    const replies: (nat, Payload) -> Reply
    var now: int
    var tries: nat
    var posts: nat
    ghost var dialed: seq<Dial>

    function State(): (s: NetState)
      reads this
      ensures s.now == now && s.tries == tries && s.posts == posts
    {
      NetState(now, tries, posts)
    }

    constructor (connects: nat -> Attempt, replies: (nat, Payload) -> Reply, start: int)
      ensures this.connects == connects && this.replies == replies
      ensures State() == NetState(start, 0, 0) && dialed == []
    {
      this.connects := connects;
      this.replies := replies;
      now, tries, posts := start, 0, 0;
      dialed := [];
    }

    /** One connect attempt: the next scripted outcome, and the clock advances by its duration. */
    method Connect(host: string, port: nat, timeoutSec: int) returns (c: Connect)
      modifies this
      ensures c == connects(old(tries)).outcome
      ensures State() == NetState(old(now) + connects(old(tries)).took, old(tries) + 1, old(posts))
      ensures dialed == old(dialed) + [Dial(host, port, timeoutSec)]
    {
      c := connects(tries).outcome;
      now := now + connects(tries).took;
      tries := tries + 1;
      dialed := dialed + [Dial(host, port, timeoutSec)];
    }

    method Sleep(ms: nat)
      modifies this
      ensures State() == NetState(old(now) + ms, old(tries), old(posts))
      ensures dialed == old(dialed)
    {
      now := now + ms;
    }

    /** One HTTP POST of `payload` to `uri`: the next scripted reply. */
    method Post(uri: string, payload: Payload) returns (reply: Reply)
      modifies this
      ensures reply == replies(old(posts), payload)
      ensures State() == NetState(old(now), old(tries), old(posts) + 1)
      ensures dialed == old(dialed)
    {
      reply := replies(posts, payload);
      posts := posts + 1;
    }
  }
}
