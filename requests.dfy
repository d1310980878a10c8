/**
 * RequestServiceImpl: requests for items that users post, and the three reads
 * over them. The user repository is passed in as a map from id to user.
 */
module Requests {
  import opened Common
  import opened Users

  datatype ItemRequest = ItemRequest(id: int, description: string, requester: User, created: int)

  /** ITEM_LIST_PAGE_SIZE, also the page length of a user's own requests. */
  const ItemListPageSize: nat := 10

  /** Ordered by id, highest first. */
  predicate IdDescending(s: seq<ItemRequest>)
  {
    forall i, j :: 0 <= i < j < |s| ==> s[i].id > s[j].id
  }

  /** setItemsForListOfRequests: null or empty gives an empty list, anything else comes back as it was. */
  function SetItemsForListOfRequests(requests: Option<seq<ItemRequest>>): (r: seq<ItemRequest>)
    ensures requests.None? ==> r == []
    ensures requests.Some? ==> r == requests.value
  {
    match requests
    case None => []
    case Some(list) => if |list| == 0 then [] else list
  }

  /** The requests `keep` selects, ordered by id descending, for rows stored in increasing id order. */
  function ByIdDesc(store: seq<ItemRequest>, keep: ItemRequest -> bool): seq<ItemRequest>
  {
    Reverse(Filter(store, keep))
  }

  /** findAllByRequesterIdOrderByIdDesc selects the caller's requests. */
  function OwnRequest(userId: int): ItemRequest -> bool
  {
    (q: ItemRequest) => q.requester.id == userId
  }

  /** findByRequesterNotOrderByIdDesc selects every other user's requests. */
  function OtherUsersRequest(userId: int): ItemRequest -> bool
  {
    (q: ItemRequest) => q.requester.id != userId
  }

  /** A selection from an id-ordered store, read backwards, is ordered by id descending and holds exactly the selected rows. */
  lemma ByIdDescContents(store: seq<ItemRequest>, keep: ItemRequest -> bool)
    requires KeysIncrease(store, (q: ItemRequest) => q.id)
    ensures IdDescending(ByIdDesc(store, keep))
    ensures forall q :: q in ByIdDesc(store, keep) <==> q in store && keep(q)
  {
    FilterKeepsKeysIncreasing(store, (q: ItemRequest) => q.id, keep);
    ReverseOfIncreasing(Filter(store, keep), (q: ItemRequest) => q.id);
    forall q ensures q in ByIdDesc(store, keep) <==> q in store && keep(q) {
      ReverseMembers(Filter(store, keep), q);
      if q in store && keep(q) {
        FilterKeeps(store, keep, q);
      }
    }
  }

  /**
   * Before paging, every stored request is in exactly one of the two lists: the
   * requester's own, or every other user's.
   */
  lemma OwnAndOtherRequestsSplit(store: seq<ItemRequest>, userId: int)
    requires KeysIncrease(store, (q: ItemRequest) => q.id)
    ensures forall q :: q in store ==>
              (q in ByIdDesc(store, OwnRequest(userId)) <==> q !in ByIdDesc(store, OtherUsersRequest(userId)))
    ensures forall q :: q in ByIdDesc(store, OwnRequest(userId)) ==> q.requester.id == userId
    ensures forall q :: q in ByIdDesc(store, OtherUsersRequest(userId)) ==> q.requester.id != userId
  {
    ByIdDescContents(store, OwnRequest(userId));
    ByIdDescContents(store, OtherUsersRequest(userId));
  }

  /** A page of an id-descending list is id-descending. */
  lemma IdDescendingPage(s: seq<ItemRequest>, index: nat, size: nat)
    requires IdDescending(s)
    ensures IdDescending(Page(s, index, size))
  {
  }

  class RequestService {
    /** The request repository's rows, in insertion order. */
    var requests: seq<ItemRequest>
    /** The id the repository generates for the next saved request. */
    var nextId: int

    ghost predicate Valid()
      reads this
    {
      && KeysIncrease(requests, (q: ItemRequest) => q.id)
      && forall i :: 0 <= i < |requests| ==> requests[i].id < nextId
    }

    constructor ()
      ensures Valid() && requests == [] && nextId == 1
    {
      requests := [];
      nextId := 1;
    }

    /** addItemRequest: a missing user is refused; otherwise the request is saved with that user as requester. */
    method AddItemRequest(request: ItemRequest, userId: int, users: map<int, User>) returns (r: Result<ItemRequest>)
      requires Valid()
      modifies this
      ensures Valid()
      ensures r.Err? <==> userId !in users
      ensures r.Err? ==> r.error == NotFound(MissingUser) && requests == old(requests) && nextId == old(nextId)
      ensures r.Ok? ==> r.value == request.(id := old(nextId), requester := users[userId])
      ensures r.Ok? ==> requests == old(requests) + [r.value] && nextId == old(nextId) + 1
    {
      if userId !in users {
        return Err(NotFound(MissingUser));
      }
      var saved := request.(id := nextId, requester := users[userId]);
      requests := requests + [saved];
      nextId := nextId + 1;
      r := Ok(saved);
    }

    /** getItemRequestById: the user is checked before the request, so a missing user wins. */
    function GetItemRequestById(requestId: int, userId: int, users: map<int, User>): (r: Result<ItemRequest>)
      requires Valid()
      reads this
      ensures userId !in users ==> r == Err(NotFound(MissingUser))
      ensures userId in users && (forall i :: 0 <= i < |requests| ==> requests[i].id != requestId)
              ==> r == Err(NotFound(MissingRequest))
      ensures r.Ok? ==> userId in users && r.value in requests && r.value.id == requestId
      ensures forall i :: 0 <= i < |requests| && requests[i].id == requestId && userId in users
                ==> r == Ok(requests[i])
    {
      FindRequestAtOwnPosition(requests);
      var found := FindByKey(requests, (q: ItemRequest) => q.id, requestId);
      if userId !in users then Err(NotFound(MissingUser))
      else if found.None? then Err(NotFound(MissingRequest))
      else Ok(requests[found.value])
    }

    /** getUserRequestsById: the caller's own requests, highest id first, the first page of ten. */
    function GetUserRequestsById(userId: int, users: map<int, User>): (r: Result<seq<ItemRequest>>)
      requires Valid()
      reads this
      ensures r.Err? <==> userId !in users
      ensures r.Err? ==> r.error == NotFound(MissingUser)
      ensures r.Ok? ==> |r.value| <= ItemListPageSize && IdDescending(r.value)
      ensures r.Ok? ==> forall q :: q in r.value ==> q in requests && q.requester.id == userId
      ensures r.Ok? ==> r.value == Page(ByIdDesc(requests, OwnRequest(userId)), 0, ItemListPageSize)
    {
      if userId !in users then Err(NotFound(MissingUser))
      else
        var sorted := ByIdDesc(requests, OwnRequest(userId));
        ByIdDescContents(requests, OwnRequest(userId));
        IdDescendingPage(sorted, 0, ItemListPageSize);
        Ok(SetItemsForListOfRequests(Some(Page(sorted, 0, ItemListPageSize))))
    }

    /** getOtherUsersRequests: everybody else's requests, highest id first, page `from / size`. */
    function GetOtherUsersRequests(userId: int, from: int, size: int, users: map<int, User>): (r: Result<seq<ItemRequest>>)
      requires Valid()
      requires from >= 0 && size >= 1
      reads this
      ensures r.Err? <==> userId !in users
      ensures r.Err? ==> r.error == NotFound(MissingUser)
      ensures r.Ok? ==> |r.value| <= size && IdDescending(r.value)
      ensures r.Ok? ==> forall q :: q in r.value ==> q in requests && q.requester.id != userId
      ensures r.Ok? ==> r.value == Page(ByIdDesc(requests, OtherUsersRequest(userId)), PageIndex(from, size), size)
    {
      var page := PageIndex(from, size);
      if userId !in users then Err(NotFound(MissingUser))
      else
        var sorted := ByIdDesc(requests, OtherUsersRequest(userId));
        ByIdDescContents(requests, OtherUsersRequest(userId));
        IdDescendingPage(sorted, page, size);
        Ok(SetItemsForListOfRequests(Some(Page(sorted, page, size))))
    }
  }

  /** In a store whose ids increase, each request is found at its own position. */
  lemma FindRequestAtOwnPosition(requests: seq<ItemRequest>)
    requires KeysIncrease(requests, (q: ItemRequest) => q.id)
    ensures forall i :: 0 <= i < |requests| ==>
              FindByKey(requests, (q: ItemRequest) => q.id, requests[i].id) == Some(i)
  {
    forall i | 0 <= i < |requests|
      ensures FindByKey(requests, (q: ItemRequest) => q.id, requests[i].id) == Some(i)
    {
      FindByKeyUnique(requests, (q: ItemRequest) => q.id, i);
    }
  }
}
