/** The favourites / blocked screen of src/app/components/UserListsView.tsx: two
    independent lists, each with its own removal by id. */
module UserLists {
  import opened Common

  datatype Favorite = Favorite(id: string, name: string, avatar: string, location: string, age: int)
  datatype BlockedEntry = BlockedEntry(id: string, name: string, avatar: string, reason: string)
  datatype ListType = Favorites | BlockedUsers

  const MOCK_FAVORITES: seq<Favorite> := [
    Favorite("1", "Juliana", "👩", "Rio de Janeiro", 26),
    Favorite("2", "Pedro", "👨", "São Paulo", 30),
    Favorite("3", "Carla", "👧", "Belo Horizonte", 28)
  ]

  const MOCK_BLOCKED: seq<BlockedEntry> := [
    BlockedEntry("99", "Marcos", "👿", "Comportamento inadequado"),
    BlockedEntry("98", "Fake Account", "🤖", "Perfil falso")
  ]

  function FavoriteId(f: Favorite): string { f.id }
  function BlockedEntryId(b: BlockedEntry): string { b.id }

  /** `prev.filter(u => u.id !== id)` over the favourites. */
  function RemoveFavorite(list: seq<Favorite>, id: string): (r: seq<Favorite>)
    ensures |r| <= |list|
    ensures forall f :: f in r <==> f in list && f.id != id
    ensures IsSubsequence(r, list)
  {
    RemoveKey(list, FavoriteId, id)
  }

  /** `prev.filter(u => u.id !== id)` over the blocked users. */
  function RemoveBlocked(list: seq<BlockedEntry>, id: string): (r: seq<BlockedEntry>)
    ensures |r| <= |list|
    ensures forall b :: b in r <==> b in list && b.id != id
    ensures IsSubsequence(r, list)
  {
    RemoveKey(list, BlockedEntryId, id)
  }

  /** Both removals are idempotent. */
  lemma RemovalsIdempotent(favorites: seq<Favorite>, blocked: seq<BlockedEntry>, id: string)
    ensures RemoveFavorite(RemoveFavorite(favorites, id), id) == RemoveFavorite(favorites, id)
    ensures RemoveBlocked(RemoveBlocked(blocked, id), id) == RemoveBlocked(blocked, id)
  {
    RemoveKeyIdempotent(favorites, FavoriteId, id);
    RemoveKeyIdempotent(blocked, BlockedEntryId, id);
  }

  /** A blocked id such as '99' is not a favourite, so removing it there changes nothing. */
  lemma RemovingUnknownFavorite()
    ensures RemoveFavorite(MOCK_FAVORITES, "99") == MOCK_FAVORITES
  {
    RemoveKeyAbsent(MOCK_FAVORITES, FavoriteId, "99");
  }

  class UserListsView {
    const listType: ListType
    var favorites: seq<Favorite>
    var blocked: seq<BlockedEntry>

    constructor (listType: ListType)
      ensures this.listType == listType
      ensures favorites == MOCK_FAVORITES && blocked == MOCK_BLOCKED
    {
      this.listType := listType;
      favorites := MOCK_FAVORITES;
      blocked := MOCK_BLOCKED;
    }

    method HandleRemoveFavorite(id: string)
      modifies this
      ensures favorites == RemoveFavorite(old(favorites), id)
      ensures blocked == old(blocked)
    {
      favorites := RemoveFavorite(favorites, id);
    }

    method HandleUnblock(id: string)
      modifies this
      ensures blocked == RemoveBlocked(old(blocked), id)
      ensures favorites == old(favorites)
    {
      blocked := RemoveBlocked(blocked, id);
    }
  }
}
