/** The blocked-users screen of src/app/components/BlockedView.tsx: a list whose entries
    are removed by id. */
module Blocked {
  import opened Common

  datatype BlockedUser = BlockedUser(id: string, name: string, date: string, avatar: string)

  const INITIAL_BLOCKED: seq<BlockedUser> := [
    BlockedUser("blk1", "Marcos Silva", "12/01/2026", "😠"),
    BlockedUser("blk2", "Julia Roberts", "10/12/2025", "😐")
  ]

  function BlockedId(u: BlockedUser): string { u.id }

  /** `prev.filter(u => u.id !== id)`. */
  function Unblock(list: seq<BlockedUser>, id: string): (r: seq<BlockedUser>)
    ensures |r| <= |list|
    ensures forall u :: u in r <==> u in list && u.id != id
    ensures IsSubsequence(r, list)
  {
    RemoveKey(list, BlockedId, id)
  }

  /** An unknown id changes nothing, and unblocking twice is unblocking once. */
  lemma UnblockSpec(list: seq<BlockedUser>, id: string)
    ensures (forall i :: 0 <= i < |list| ==> list[i].id != id) ==> Unblock(list, id) == list
    ensures Unblock(Unblock(list, id), id) == Unblock(list, id)
  {
    if forall i :: 0 <= i < |list| ==> list[i].id != id {
      RemoveKeyAbsent(list, BlockedId, id);
    }
    RemoveKeyIdempotent(list, BlockedId, id);
  }

  /** Unblocking the first mock entry leaves just the second. */
  lemma UnblockFirstMock()
    ensures Unblock(INITIAL_BLOCKED, "blk1") == [INITIAL_BLOCKED[1]]
  {
    assert INITIAL_BLOCKED == [INITIAL_BLOCKED[0]] + [INITIAL_BLOCKED[1]];
    RemoveKeyAppend([INITIAL_BLOCKED[0]], [INITIAL_BLOCKED[1]], BlockedId, "blk1");
  }

  class BlockedView {
    var blockedList: seq<BlockedUser>

    constructor ()
      ensures blockedList == INITIAL_BLOCKED
    {
      blockedList := INITIAL_BLOCKED;
    }

    /** `handleUnblock`: drop the entries of `id` and confirm with a notice. */
    method HandleUnblock(id: string, name: string) returns (notice: string)
      modifies this
      ensures blockedList == Unblock(old(blockedList), id)
      ensures notice == name + " foi desbloqueado."
    {
      blockedList := Unblock(blockedList, id);
      notice := name + " foi desbloqueado.";
    }
  }
}
