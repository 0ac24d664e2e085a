/** The client list: case-insensitive search plus a status drop-down, and the avatar letter. */
module ClientManagement {
  import opened Seqs
  import opened Text
  import opened Domain

  /** The status drop-down offers 'all', 'active' and 'inactive' only. */
  datatype StatusFilter = AllStatuses | ActiveOnly | InactiveOnly

  /** `filterStatus === 'all' || client.status === filterStatus`. */
  predicate MatchesFilter(c: Client, filter: StatusFilter)
  {
    match filter
    case AllStatuses => true
    case ActiveOnly => c.status == Active
    case InactiveOnly => c.status == Inactive
  }

  /** The lower-cased name, PAN or e-mail contains the lower-cased search term. */
  predicate MatchesSearch(c: Client, term: string)
  {
    || IsSubstring(Lower(term), Lower(c.name))
    || IsSubstring(Lower(term), Lower(c.pan))
    || IsSubstring(Lower(term), Lower(c.email))
  }

  /** The clients shown: those matching both the search and the status filter, in order. */
  function FilteredClients(clients: seq<Client>, term: string, filter: StatusFilter): (r: seq<Client>)
    ensures forall i :: 0 <= i < |r| ==>
      r[i] in clients && MatchesSearch(r[i], term) && MatchesFilter(r[i], filter)
    ensures forall i :: 0 <= i < |clients| && MatchesSearch(clients[i], term) && MatchesFilter(clients[i], filter) ==>
      clients[i] in r
    ensures forall i :: 0 <= i < |clients| ==>
      multiset(r)[clients[i]] ==
        if MatchesSearch(clients[i], term) && MatchesFilter(clients[i], filter) then multiset(clients)[clients[i]] else 0
    ensures IsSubsequence(r, clients)
  {
    Filter(clients, (c: Client) => MatchesSearch(c, term) && MatchesFilter(c, filter))
  }

  /** An empty search with 'all' shows every client in the original order. */
  lemma EmptySearchShowsAll(clients: seq<Client>)
    ensures FilteredClients(clients, "", AllStatuses) == clients
  {
    forall c: Client | c in clients ensures MatchesSearch(c, "") {
      EmptyIsSubstring(Lower(c.name));
    }
    FilterKeepsAll(clients, (c: Client) => MatchesSearch(c, "") && MatchesFilter(c, AllStatuses));
  }

  /** Search terms that differ only in letter case show the same clients. */
  lemma SearchIgnoresCase(clients: seq<Client>, t1: string, t2: string, filter: StatusFilter)
    requires SameIgnoringCase(t1, t2)
    ensures FilteredClients(clients, t1, filter) == FilteredClients(clients, t2, filter)
  {
    FilterCongruent(clients,
      (c: Client) => MatchesSearch(c, t1) && MatchesFilter(c, filter),
      (c: Client) => MatchesSearch(c, t2) && MatchesFilter(c, filter));
  }

  /** A client found by a longer term is found by every part of it. */
  lemma LongerTermMatchesLess(c: Client, shorter: string, longer: string)
    requires IsSubstring(shorter, longer) && MatchesSearch(c, longer)
    ensures MatchesSearch(c, shorter)
  {
    LowerKeepsSubstring(shorter, longer);
    if IsSubstring(Lower(longer), Lower(c.name)) {
      SubstringTransitive(Lower(shorter), Lower(longer), Lower(c.name));
    } else if IsSubstring(Lower(longer), Lower(c.pan)) {
      SubstringTransitive(Lower(shorter), Lower(longer), Lower(c.pan));
    } else {
      SubstringTransitive(Lower(shorter), Lower(longer), Lower(c.email));
    }
  }

  /** Typing more of the search term never adds a client, and keeps the order. */
  lemma RefiningSearchNarrows(clients: seq<Client>, shorter: string, longer: string, filter: StatusFilter)
    requires IsSubstring(shorter, longer)
    ensures IsSubsequence(FilteredClients(clients, longer, filter), FilteredClients(clients, shorter, filter))
  {
    forall c: Client | c in clients && MatchesSearch(c, longer) && MatchesFilter(c, filter)
      ensures MatchesSearch(c, shorter)
    {
      LongerTermMatchesLess(c, shorter, longer);
    }
    FilterStronger(clients,
      (c: Client) => MatchesSearch(c, longer) && MatchesFilter(c, filter),
      (c: Client) => MatchesSearch(c, shorter) && MatchesFilter(c, filter));
  }

  /** A pending client is shown only under 'all': no drop-down value selects it. */
  lemma PendingOnlyUnderAll(clients: seq<Client>, term: string, filter: StatusFilter, c: Client)
    requires c.status == Pending && c in FilteredClients(clients, term, filter)
    ensures filter == AllStatuses
  {
    var r := FilteredClients(clients, term, filter);
    var i :| 0 <= i < |r| && r[i] == c;
  }

  /** The letter in a client's avatar: the first character of the name, upper-cased. */
  function AvatarInitial(name: string): (r: string)
    ensures |r| == if name == [] then 0 else 1
    ensures r != [] ==> !IsLowerAscii(r[0]) && LowerChar(r[0]) == LowerChar(name[0])
  {
    Upper(name[..if name == [] then 0 else 1])
  }
}
