/**
 * Sending one body to every sibling node: one HTTP POST per sibling address,
 * in address order, each spawned without waiting for the answer.
 */
module Siblings {
  import opened Bytes

  /** One outbound POST request. */
  datatype Post = Post(url: string, body: seq<byte>)

  /** The requests a fan-out of `body` makes. */
  function Broadcast(addresses: seq<string>, body: seq<byte>): (posts: seq<Post>)
    ensures |posts| == |addresses|
    ensures forall i :: 0 <= i < |posts| ==> posts[i] == Post(addresses[i], body)
  {
    seq(|addresses|, i requires 0 <= i < |addresses| => Post(addresses[i], body))
  }

  /** The `for url in self.sibling_addresses.iter()` loop. */
  method SendToAll(addresses: seq<string>, body: seq<byte>) returns (posts: seq<Post>)
    ensures posts == Broadcast(addresses, body)
  {
    posts := [];
    for i := 0 to |addresses|
      invariant |posts| == i
      invariant forall j :: 0 <= j < i ==> posts[j] == Post(addresses[j], body)
    {
      posts := posts + [Post(addresses[i], body)];
    }
  }

  /** Every sibling gets exactly one request, and they all carry the same body. */
  lemma BroadcastReachesEachOnce(addresses: seq<string>, body: seq<byte>, url: string)
    ensures forall p :: p in Broadcast(addresses, body) ==> p.body == body
    ensures url in addresses <==> Post(url, body) in Broadcast(addresses, body)
    ensures multiset(addresses)[url] == multiset(Broadcast(addresses, body))[Post(url, body)]
  {
    var posts := Broadcast(addresses, body);
    if url in addresses {
      var i :| 0 <= i < |addresses| && addresses[i] == url;
      assert posts[i] == Post(url, body);
    }
    MultiplicityMatches(addresses, body, url);
  }

  lemma {:induction false} MultiplicityMatches(addresses: seq<string>, body: seq<byte>, url: string)
    ensures multiset(addresses)[url] == multiset(Broadcast(addresses, body))[Post(url, body)]
  {
    if |addresses| > 0 {
      var init := addresses[..|addresses| - 1];
      MultiplicityMatches(init, body, url);
      assert addresses == init + [addresses[|addresses| - 1]];
      assert Broadcast(addresses, body) == Broadcast(init, body) + [Post(addresses[|addresses| - 1], body)];
    }
  }
}
