/**
 * Node selection of the asynchronous publisher (esgfpid/rabbit/nodemanager.py).
 *
 * A NodeManager keeps two lists of broker nodes, trusted and open. Nodes are
 * admitted only when they carry a host, a user name, a password and an
 * exchange name. Selecting the next host moves one node out of a list into the
 * current slot: trusted nodes before open ones, the only node by `pop()`, and
 * otherwise a node at a random index, removed with `list.remove`. When both
 * lists are empty the current node stays.
 */
module NodeManagement {
  import opened Wrappers

  /** The keyword arguments a node is described by. */
  type NodeInfo = map<string, string>

  /** The broker connection parameters built from a node's description. */
  datatype ConnectionParameters = ConnectionParameters(host: string, username: string, password: string)

  /** An admitted node: its description and the parameters built from it. */
  datatype Node = Node(info: NodeInfo, params: ConnectionParameters)

  /** A node is admitted only when all four of these keys are present (nodemanager.py:42-49). */
  predicate HasNecessaryInfo(info: NodeInfo) {
    "username" in info && "password" in info && "host" in info && "exchange_name" in info
  }

  /** The admitted node: the description with the parameters added (nodemanager.py:52-79). */
  function CompleteInfo(info: NodeInfo): (n: Node)
    requires HasNecessaryInfo(info)
    ensures n.info == info
    ensures n.params.host == info["host"]
    ensures n.params.username == info["username"] && n.params.password == info["password"]
  {
    Node(info, ConnectionParameters(info["host"], info["username"], info["password"]))
  }

  /** A node as the manager keeps it: completed from a description that has the four keys. */
  predicate WellFormed(n: Node) {
    HasNecessaryInfo(n.info) && n == CompleteInfo(n.info)
  }

  predicate AllWellFormed(nodes: seq<Node>) {
    forall i :: 0 <= i < |nodes| ==> WellFormed(nodes[i])
  }

  //
  // Python's list.remove: the first equal element goes
  //

  /** The position of the first occurrence of `x` in `s`. */
  function IndexOf<T(==)>(s: seq<T>, x: T): (i: nat)
    requires x in s
    ensures i < |s| && s[i] == x
    ensures x !in s[..i]
  {
    if s[0] == x then 0
    else
      assert s == [s[0]] + s[1..];
      1 + IndexOf(s[1..], x)
  }

  /** `s` with its first occurrence of `x` removed; `s` itself when there is none. */
  function RemoveFirst<T(==)>(s: seq<T>, x: T): (r: seq<T>)
    ensures x !in s ==> r == s
    ensures x in s ==> |r| == |s| - 1 && multiset(r) == multiset(s) - multiset{x}
  {
    if s == [] then []
    else
      assert s == [s[0]] + s[1..];
      if s[0] == x then s[1..]
      else [s[0]] + RemoveFirst(s[1..], x)
  }

  /** Removing the first occurrence cuts the list at that occurrence. */
  lemma {:induction false} RemoveFirstSplices<T>(s: seq<T>, x: T)
    requires x in s
    ensures RemoveFirst(s, x) == s[..IndexOf(s, x)] + s[IndexOf(s, x) + 1..]
    decreases |s|
  {
    if s[0] != x {
      assert s == [s[0]] + s[1..];
      RemoveFirstSplices(s[1..], x);
      var i := IndexOf(s[1..], x);
      assert s[..i + 1] == [s[0]] + s[1..][..i];
      assert s[i + 2..] == s[1..][i + 1..];
    }
  }

  /** Removing adds nothing: whatever is left was in the list. */
  lemma RemoveFirstSubset<T>(s: seq<T>, x: T, y: T)
    requires y in RemoveFirst(s, x)
    ensures y in s
  {
    if x in s {
      assert multiset(RemoveFirst(s, x))[y] > 0;
    }
  }

  /**
   * __select_and_remove_random_url_from_list: a node at some index of the
   * list is selected, and its first occurrence is removed from the list
   * (nodemanager.py:122-127). The random index is a nondeterministic choice.
   */
  method SelectAndRemoveRandomUrlFromList(urls: seq<Node>) returns (selected: Node, rest: seq<Node>)
    requires |urls| > 0
    ensures selected in urls
    ensures rest == RemoveFirst(urls, selected)
    ensures |rest| == |urls| - 1
    ensures multiset(rest) + multiset{selected} == multiset(urls)
  {
    var randomNum :| 0 <= randomNum < |urls|;
    selected := urls[randomNum];
    rest := RemoveFirst(urls, selected);
  }

  //
  // The selection step as a relation on the manager's abstract state
  //

  /** The lists and the current node. */
  datatype Pool = Pool(trusted: seq<Node>, open: seq<Node>, current: Option<Node>)

  function LeftCount(p: Pool): nat {
    |p.trusted| + |p.open|
  }

  /** Every node the pool holds, trusted ones first. */
  function Nodes(p: Pool): multiset<Node> {
    multiset(p.trusted) + multiset(p.open)
  }

  /**
   * `after` is `before` with `x` taken out: by `pop()` when it is the only
   * node, by removing its first occurrence when there are several.
   */
  predicate TakenFrom(before: seq<Node>, after: seq<Node>, x: Node) {
    if |before| == 1 then x == before[0] && after == []
    else x in before && after == RemoveFirst(before, x)
  }

  /** One set_next_host on a pool that does not raise (nodemanager.py:94-115). */
  predicate SelectsNext(p: Pool, q: Pool) {
    if |p.trusted| > 0 then
      q.current.Some? && TakenFrom(p.trusted, q.trusted, q.current.value) && q.open == p.open
    else if |p.open| > 0 then
      q.current.Some? && TakenFrom(p.open, q.open, q.current.value) && q.trusted == p.trusted
    else
      p.current.Some? && q == p
  }

  /** Taking a node out of a non-empty list shortens it by one and keeps the others. */
  lemma TakenFromRemovesOne(before: seq<Node>, after: seq<Node>, x: Node)
    requires |before| > 0 && TakenFrom(before, after, x)
    ensures x in before
    ensures |after| == |before| - 1
    ensures multiset(after) + multiset{x} == multiset(before)
  {
    if |before| == 1 {
      assert before == [x];
    }
  }

  /** A selection with a node left lowers the count by exactly one. */
  lemma SelectionLowersCount(p: Pool, q: Pool)
    requires SelectsNext(p, q) && LeftCount(p) > 0
    ensures LeftCount(q) == LeftCount(p) - 1
  {
    if |p.trusted| > 0 {
      TakenFromRemovesOne(p.trusted, q.trusted, q.current.value);
    } else {
      TakenFromRemovesOne(p.open, q.open, q.current.value);
    }
  }

  /** No node is lost or made up: the selected node and the rest are the nodes held before. */
  lemma SelectionConservesNodes(p: Pool, q: Pool)
    requires SelectsNext(p, q) && LeftCount(p) > 0
    ensures Nodes(q) + multiset{q.current.value} == Nodes(p)
  {
    if |p.trusted| > 0 {
      TakenFromRemovesOne(p.trusted, q.trusted, q.current.value);
    } else {
      TakenFromRemovesOne(p.open, q.open, q.current.value);
    }
  }

  /** Open nodes are only used once no trusted node is left. */
  lemma TrustedBeforeOpen(p: Pool, q: Pool)
    requires SelectsNext(p, q) && |p.trusted| > 0
    ensures q.current.Some? && q.current.value in p.trusted
    ensures q.open == p.open && |q.trusted| == |p.trusted| - 1
  {
    TakenFromRemovesOne(p.trusted, q.trusted, q.current.value);
  }

  /** With no trusted node left, the new current node is an open one. */
  lemma OpenWhenNoTrusted(p: Pool, q: Pool)
    requires SelectsNext(p, q) && |p.trusted| == 0 && |p.open| > 0
    ensures q.current.Some? && q.current.value in p.open
    ensures q.trusted == p.trusted && |q.open| == |p.open| - 1
  {
    TakenFromRemovesOne(p.open, q.open, q.current.value);
  }

  /** Selection keeps every node well formed, the current one included. */
  lemma SelectionKeepsNodesWellFormed(p: Pool, q: Pool)
    requires SelectsNext(p, q)
    requires AllWellFormed(p.trusted) && AllWellFormed(p.open)
    requires p.current.Some? ==> WellFormed(p.current.value)
    ensures AllWellFormed(q.trusted) && AllWellFormed(q.open)
    ensures q.current.Some? && WellFormed(q.current.value)
  {
    if |p.trusted| > 0 {
      KeepsWellFormed(p.trusted, q.trusted, q.current.value);
    } else if |p.open| > 0 {
      KeepsWellFormed(p.open, q.open, q.current.value);
    }
  }

  /** Taking a node out of a list of well-formed nodes leaves well-formed nodes. */
  lemma KeepsWellFormed(before: seq<Node>, after: seq<Node>, x: Node)
    requires |before| > 0 && TakenFrom(before, after, x) && AllWellFormed(before)
    ensures AllWellFormed(after) && WellFormed(x)
  {
    if |before| > 1 {
      forall i | 0 <= i < |after|
        ensures WellFormed(after[i])
      {
        RemoveFirstSubset(before, x, after[i]);
      }
    }
  }

  //
  // The manager object
  //

  class NodeManager {
    var trustedNodes: seq<Node>
    var openNodes: seq<Node>
    var currentNode: Option<Node>
    var exchangeName: Option<string>  // None: the attribute has not been set yet

    /** The nodes are well formed, and the exchange name is the current node's. */
    predicate Valid()
      reads this
    {
      && AllWellFormed(trustedNodes) && AllWellFormed(openNodes)
      && (currentNode.Some? ==> WellFormed(currentNode.value))
      && exchangeName == (if currentNode.Some? then Some(currentNode.value.info["exchange_name"]) else None)
    }

    function State(): Pool
      reads this
    {
      Pool(trustedNodes, openNodes, currentNode)
    }

    /** Both lists empty, no current node (nodemanager.py:13-26). */
    constructor ()
      ensures Valid()
      ensures trustedNodes == [] && openNodes == [] && currentNode.None?
    {
      trustedNodes := [];
      openNodes := [];
      currentNode := None;
      exchangeName := None;
    }

    /** Appends the completed node to the trusted list when it has the four keys. */
    method AddTrustedNode(info: NodeInfo)
      requires Valid()
      modifies this`trustedNodes
      ensures Valid()
      ensures trustedNodes == if HasNecessaryInfo(info) then old(trustedNodes) + [CompleteInfo(info)]
                              else old(trustedNodes)
    {
      if HasNecessaryInfo(info) {
        var nodeInfo := CompleteInfo(info);
        trustedNodes := trustedNodes + [nodeInfo];
      }
    }

    /** Appends the completed node to the open list when it has the four keys. */
    method AddOpenNode(info: NodeInfo)
      requires Valid()
      modifies this`openNodes
      ensures Valid()
      ensures openNodes == if HasNecessaryInfo(info) then old(openNodes) + [CompleteInfo(info)]
                           else old(openNodes)
    {
      if HasNecessaryInfo(info) {
        var nodeInfo := CompleteInfo(info);
        openNodes := openNodes + [nodeInfo];
      }
    }

    /** How many nodes are left to select. */
    method GetNumLeftUrls() returns (n: nat)
      ensures n == LeftCount(State())
    {
      n := |trustedNodes| + |openNodes|;
    }

    /** Whether a node is left to select. */
    method HasMoreUrls() returns (more: bool)
      ensures more <==> LeftCount(State()) > 0
    {
      var n := GetNumLeftUrls();
      more := n > 0;
    }

    /**
     * set_next_host. With both lists empty and no current node, the source
     * subscripts None and raises TypeError: `ok` is false and nothing changes.
     * Otherwise the step is SelectsNext and the exchange name follows the
     * current node.
     */
    method SetNextHost() returns (ok: bool)
      requires Valid()
      modifies this`trustedNodes, this`openNodes, this`currentNode, this`exchangeName
      ensures Valid()
      ensures ok <==> LeftCount(old(State())) > 0 || old(currentNode).Some?
      ensures ok ==> SelectsNext(old(State()), State())
      ensures !ok ==> State() == old(State())
    {
      if |trustedNodes| == 1 {
        currentNode := Some(trustedNodes[|trustedNodes| - 1]);
        trustedNodes := trustedNodes[..|trustedNodes| - 1];
      } else if |trustedNodes| > 1 {
        var selected, rest := SelectAndRemoveRandomUrlFromList(trustedNodes);
        KeepsWellFormed(trustedNodes, rest, selected);
        currentNode, trustedNodes := Some(selected), rest;
      } else if |openNodes| == 1 {
        currentNode := Some(openNodes[|openNodes| - 1]);
        openNodes := openNodes[..|openNodes| - 1];
      } else if |openNodes| > 1 {
        var selected, rest := SelectAndRemoveRandomUrlFromList(openNodes);
        KeepsWellFormed(openNodes, rest, selected);
        currentNode, openNodes := Some(selected), rest;
      } else if currentNode.None? {
        return false;  // TypeError: no node to leave in place
      }
      exchangeName := Some(currentNode.value.info["exchange_name"]);
      ok := true;
    }

    /**
     * The connection parameters of the current node, selecting one first when
     * there is none yet. None stands for the TypeError of that selection.
     */
    method GetConnectionParameters() returns (params: Option<ConnectionParameters>)
      requires Valid()
      modifies this`trustedNodes, this`openNodes, this`currentNode, this`exchangeName
      ensures Valid()
      ensures old(currentNode).Some? ==> State() == old(State()) && params == Some(old(currentNode).value.params)
      ensures old(currentNode).None? ==>
                if LeftCount(old(State())) > 0 then
                  SelectsNext(old(State()), State()) && params == Some(currentNode.value.params)
                else params.None? && State() == old(State())
    {
      if currentNode.None? {
        var ok := SetNextHost();
        if !ok {
          return None;
        }
      }
      params := Some(currentNode.value.params);
    }

    /**
     * The exchange name of the last selection. None stands for the
     * AttributeError raised before any node was selected.
     */
    method GetExchangeName() returns (name: Option<string>)
      requires Valid()
      ensures name.Some? <==> currentNode.Some?
      ensures currentNode.Some? ==> name.value == currentNode.value.info["exchange_name"]
    {
      name := exchangeName;
    }
  }
}
