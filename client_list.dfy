/**
 * The dashboard's client table (frontend/src/pages/index.tsx): the search box
 * filter over the client list, and the guard that shows "0%" instead of
 * dividing by a zero equipment count.
 */
module ClientList {
  import opened Text
  import opened Types

  /** A client matches when its lower-cased name contains the lower-cased term. */
  predicate Matches(client: ClientSummary, searchTerm: string)
  {
    Contains(Lower(client.name), Lower(searchTerm))
  }

  /** The search box filter: keeps, in order, the clients whose lower-cased name
      contains the lower-cased search term. */
  function FilterClients(clients: seq<ClientSummary>, searchTerm: string): (r: seq<ClientSummary>)
    ensures |r| <= |clients|
    ensures forall c :: c in r ==> c in clients && Matches(c, searchTerm)
  {
    if clients == [] then []
    else if Matches(clients[0], searchTerm) then [clients[0]] + FilterClients(clients[1..], searchTerm)
    else FilterClients(clients[1..], searchTerm)
  }

  /** Nothing matching is dropped and nothing else is kept, counting duplicates. */
  lemma {:induction false} FilterKeepsExactlyMatches(clients: seq<ClientSummary>, searchTerm: string, c: ClientSummary)
    ensures multiset(FilterClients(clients, searchTerm))[c] ==
              if Matches(c, searchTerm) then multiset(clients)[c] else 0
  {
    if clients != [] {
      FilterKeepsExactlyMatches(clients[1..], searchTerm, c);
      assert clients == [clients[0]] + clients[1..];
    }
  }

  /** A client is shown exactly when it is in the list and matches. */
  lemma FilterMembership(clients: seq<ClientSummary>, searchTerm: string, c: ClientSummary)
    ensures c in FilterClients(clients, searchTerm) <==> c in clients && Matches(c, searchTerm)
  {
  }

  /** The filter works piecewise, so the kept clients stay in their original order. */
  lemma {:induction false} FilterDistributes(a: seq<ClientSummary>, b: seq<ClientSummary>, searchTerm: string)
    ensures FilterClients(a + b, searchTerm) == FilterClients(a, searchTerm) + FilterClients(b, searchTerm)
  {
    if a == [] {
      assert a + b == b;
    } else {
      assert (a + b)[0] == a[0];
      assert (a + b)[1..] == a[1..] + b;
      FilterDistributes(a[1..], b, searchTerm);
    }
  }

  /** `sub` can be obtained from `s` by deleting elements. */
  predicate IsSubsequence(sub: seq<ClientSummary>, s: seq<ClientSummary>)
    decreases |s|
  {
    sub == [] || (s != [] && (if sub[0] == s[0] then IsSubsequence(sub[1..], s[1..]) else IsSubsequence(sub, s[1..])))
  }

  lemma {:induction false} FilterIsSubsequence(clients: seq<ClientSummary>, searchTerm: string)
    ensures IsSubsequence(FilterClients(clients, searchTerm), clients)
  {
    if clients != [] {
      var r := FilterClients(clients, searchTerm);
      var rest := FilterClients(clients[1..], searchTerm);
      FilterIsSubsequence(clients[1..], searchTerm);
      if Matches(clients[0], searchTerm) {
        assert r[1..] == rest;
      }
    }
  }

  /** An empty search box shows every client. */
  lemma {:induction false} EmptyTermKeepsAll(clients: seq<ClientSummary>)
    ensures FilterClients(clients, "") == clients
  {
    if clients != [] {
      assert Lower("") == "";
      assert Matches(clients[0], "");
      EmptyTermKeepsAll(clients[1..]);
    }
  }

  /** Typing the term in capitals shows the same clients. */
  lemma {:induction false} FilterIgnoresTermCase(clients: seq<ClientSummary>, searchTerm: string)
    ensures FilterClients(clients, Upper(searchTerm)) == FilterClients(clients, searchTerm)
  {
    LowerOfUpper(searchTerm);
    if clients != [] {
      FilterIgnoresTermCase(clients[1..], searchTerm);
    }
  }

  /** Filtering an already filtered list with the same term changes nothing. */
  lemma {:induction false} FilterIdempotent(clients: seq<ClientSummary>, searchTerm: string)
    ensures FilterClients(FilterClients(clients, searchTerm), searchTerm) == FilterClients(clients, searchTerm)
  {
    if clients != [] {
      FilterIdempotent(clients[1..], searchTerm);
      var rest := FilterClients(clients[1..], searchTerm);
      if Matches(clients[0], searchTerm) {
        var r := [clients[0]] + rest;
        assert r[0] == clients[0] && r[1..] == rest;
      }
    }
  }

  /** What the "% Facturable" cell shows: "0%" or the ratio billable / total. */
  datatype PercentCell = ZeroPercent | Ratio(billable: int, total: int)

  /** The `totalEquipment > 0` guard in front of the division. */
  function BillablePercentCell(client: ClientSummary): (r: PercentCell)
    ensures r.Ratio? ==> r.total > 0
    ensures r == ZeroPercent <==> client.totalEquipment <= 0
    ensures r.Ratio? ==> r.billable == client.billableEquipment && r.total == client.totalEquipment
  {
    if client.totalEquipment > 0 then Ratio(client.billableEquipment, client.totalEquipment) else ZeroPercent
  }
}
