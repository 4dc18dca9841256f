/** The server's list of connected clients, `server.clients`, kept only as
    the number of times each connection appears in it. */
module Clients {
  import opened Events

  /** `list.remove`: drops one occurrence of `me`, or fails with `ValueError`
      when there is none. */
  function Remove<T>(clients: multiset<T>, me: T): (r: Option<multiset<T>>)
    ensures r.None? <==> me !in clients
    ensures r.Some? ==> r.value[me] == clients[me] - 1
    ensures r.Some? ==> forall c :: c in r.value ==> c in clients
    ensures r.Some? ==> forall c :: c in clients && c != me ==> r.value[c] == clients[c]
  {
    if me in clients then Some(clients - multiset{me}) else None
  }

  /** Registration as the session is written: `setup` appends the connection,
      and a successful bus open appends it a second time. */
  function RegisterAsWritten<T>(clients: multiset<T>, me: T, connected: bool): (r: multiset<T>)
    ensures r[me] == clients[me] + (if connected then 2 else 1)
    ensures forall c :: c in r ==> c in clients || c == me
    ensures forall c :: c in clients && c != me ==> r[c] == clients[c]
  {
    clients + multiset{me} + (if connected then multiset{me} else multiset{})
  }

  /** As written, a connected session that finishes leaves one entry for itself
      in the list: the connection is never forgotten by the server. */
  lemma {:induction false} StaleEntryAfterFinish<T>(clients: multiset<T>, me: T)
    ensures var r := Remove(RegisterAsWritten(clients, me, true), me);
      r.Some? && me in r.value && r.value[me] == clients[me] + 1
  {
    var reg := RegisterAsWritten(clients, me, true);
    assert me in reg;
  }

  /** Registration as intended: the connection is appended once. */
  function Register<T>(clients: multiset<T>, me: T): (r: multiset<T>)
    ensures r[me] == clients[me] + 1
    ensures forall c :: c in r ==> c in clients || c == me
    ensures forall c :: c in clients && c != me ==> r[c] == clients[c]
  {
    clients + multiset{me}
  }

  /** With single registration, `finish` removes the connection's entry and
      leaves the list as it was before `setup`. */
  lemma {:induction false} FinishDeregisters<T>(clients: multiset<T>, me: T)
    ensures Remove(Register(clients, me), me) == Some(clients)
  {
    var reg := Register(clients, me);
    assert me in reg;
    assert reg - multiset{me} == clients;
  }
}
