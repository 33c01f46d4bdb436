/** The intrusive circular list of libuv. A ring is given by its links in order, the head
    first; a head alone is the empty queue. */
module Queue {
  import opened Util

  class Link {
    var next: Link
    var prev: Link

    /** uv__queue_init, on a new link. */
    constructor ()
      ensures Ring([this])
    {
      next, prev := this, this;
    }
  }

  ghost predicate Ring(s: seq<Link>)
    reads s
  {
    && s != [] && Distinct(s)
    && (forall i :: 0 <= i < |s| - 1 ==> s[i].next == s[i + 1])
    && (forall i :: 0 < i < |s| ==> s[i].prev == s[i - 1])
    && s[|s| - 1].next == s[0] && s[0].prev == s[|s| - 1]
  }

  /** uv__queue_init. */
  method Init(q: Link)
    modifies q
    ensures Ring([q])
  {
    q.next := q;
    q.prev := q;
  }

  /** uv__queue_empty, with uv__queue_head for the other case. */
  method Empty(q: Link, ghost s: seq<Link>) returns (r: bool, head: Link)
    requires Ring(s) && s[0] == q
    ensures r <==> s == [q]
    ensures !r ==> |s| > 1 && head == s[1]
  {
    r, head := q == q.next, q.next;
    if |s| > 1 { assert s[0] != s[1] && s[0].next == s[1]; }
  }

  method InsertTail(h: Link, q: Link, ghost s: seq<Link>)
    requires Ring(s) && s[0] == h && q !in s
    modifies s, q
    ensures Ring(s + [q])
  {
    q.next := h;
    q.prev := h.prev;
    q.prev.next := q;
    h.prev := q;
  }

  method InsertHead(h: Link, q: Link, ghost s: seq<Link>)
    requires Ring(s) && s[0] == h && q !in s
    modifies s, q
    ensures Ring([h, q] + s[1..])
  {
    ghost var r := [h, q] + s[1..];
    assert forall k :: 2 <= k < |r| ==> r[k] == s[k - 1];
    if |s| > 1 { assert s[0].next == s[1]; }
    q.next := h.next;
    q.prev := h;
    q.next.prev := q;
    h.next := q;
  }

  /** uv__queue_remove: a link is taken out wherever it is; one that is alone stays alone. */
  method Remove(q: Link, ghost s: seq<Link>, ghost i: nat)
    requires Ring(s) && i < |s| && s[i] == q
    modifies s
    ensures |s| == 1 ==> Ring(s)
    ensures |s| > 1 ==> Ring(s[..i] + s[i + 1..])
  {
    ghost var n, r := |s|, s[..i] + s[i + 1..];
    assert q.prev == s[if i == 0 then n - 1 else i - 1] && q.next == s[if i == n - 1 then 0 else i + 1];
    assert forall k :: 0 <= k < |r| ==> r[k] == s[if k < i then k else k + 1];
    q.prev.next := q.next;
    q.next.prev := q.prev;
  }

  /** uv__queue_split: what comes from `q` on goes to the head `n`. */
  method Split(h: Link, q: Link, n: Link, ghost s: seq<Link>, ghost i: nat)
    requires Ring(s) && s[0] == h && 0 < i < |s| && s[i] == q && n !in s
    modifies s, n
    ensures Ring(s[..i]) && Ring([n] + s[i..])
  {
    ghost var r := [n] + s[i..];
    assert forall k :: 1 <= k < |r| ==> r[k] == s[i + k - 1];
    assert h.prev == s[|s| - 1] && q.prev == s[i - 1];
    n.prev := h.prev;
    n.prev.next := n;
    n.next := q;
    h.prev := q.prev;
    h.prev.next := h;
    q.prev := n;
  }

  /** uv__queue_move: everything goes to the head `n`. */
  method Move(h: Link, n: Link, ghost s: seq<Link>)
    requires Ring(s) && s[0] == h && n !in s
    modifies s, n
    ensures Ring([h]) && Ring([n] + s[1..])
  {
    var empty, head := Empty(h, s);
    if empty {
      Init(n);
      assert [n] + s[1..] == [n];
    } else {
      Split(h, head, n, s, 1);
      assert s[..1] == [h];
    }
  }

  lemma JoinDistinct(s: seq<Link>, t: seq<Link>)
    requires Distinct(s) && Distinct(t) && t != [] && forall x :: x in s ==> x !in t
    ensures Distinct(s + t[1..])
    ensures forall i, j :: 0 <= i < |s| && 0 <= j < |t| ==> s[i] != t[j]
  {
    forall i, j | 0 <= i < |s| && 0 <= j < |t| ensures s[i] != t[j] {
      assert s[i] in s && t[j] in t;
    }
  }

  /** uv__queue_add: what follows the head `n` goes to the end of the queue of `h`. */
  method Add(h: Link, n: Link, ghost s: seq<Link>, ghost t: seq<Link>)
    requires Ring(s) && Ring(t) && s[0] == h && t[0] == n && forall x :: x in s ==> x !in t
    modifies s, t
    ensures Ring(s + t[1..])
  {
    ghost var m, r := |s|, s + t[1..];
    JoinDistinct(s, t);
    hide Distinct;
    assert forall k :: 0 <= k < |r| ==> r[k] == if k < m then s[k] else t[k - m + 1];
    assert h.prev == s[m - 1] && n.prev == t[|t| - 1] && n.next == t[if |t| == 1 then 0 else 1];
    if |t| > 1 { assert r[m] == t[1]; }
    h.prev.next := n.next;
    n.next.prev := h.prev;
    h.prev := n.prev;
    h.prev.next := h;
  }
}
