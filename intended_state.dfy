/**
  The intended state: protect surface -> location -> content type -> identifiers,
  the nested dictionary `protectsurface_intended_state` that one reconciliation run
  builds from the inventory.
 */
module IntendedStates {
  import opened OrderedMaps

  /** The two content types the enumerator records. */
  datatype ContentType = AzureCloud | Ipv4 {
    /** The string the service receives as `content_type`. */
    function Name(): string {
      match this
      case AzureCloud => "azure_cloud"
      case Ipv4 => "ipv4"
    }
  }

  type LocationState = OMap<ContentType, seq<string>>
  type GroupState = OMap<string, LocationState>
  type IntendedState = OMap<string, GroupState>

  /** Every level is a valid dictionary, and nothing is ever empty: a level exists
      only because an identifier was recorded under it. */
  ghost predicate WellFormed(s: IntendedState) {
    Valid(s) && forall g :: g in s.vals ==> GroupWellFormed(s.vals[g])
  }

  ghost predicate GroupWellFormed(gs: GroupState) {
    Valid(gs) && gs.keys != [] && forall l :: l in gs.vals ==> LocationWellFormed(gs.vals[l])
  }

  ghost predicate LocationWellFormed(ls: LocationState) {
    Valid(ls) && ls.keys != [] && forall ct :: ct in ls.vals ==> ls.vals[ct] != []
  }

  /** The group `g` of `s`, empty when absent. */
  function GroupOf(s: IntendedState, g: string): GroupState {
    if g in s.vals then s.vals[g] else Empty()
  }

  /** The location `l` of a group, empty when absent. */
  function LocationOf(gs: GroupState, l: string): LocationState {
    if l in gs.vals then gs.vals[l] else Empty()
  }

  /** The identifiers of content type `ct` at a location, `[]` when absent. */
  function IdsAt(ls: LocationState, ct: ContentType): seq<string> {
    if ct in ls.vals then ls.vals[ct] else []
  }

  /** The identifiers recorded under (g, l, ct); `[]` where a level is missing. */
  function Entries(s: IntendedState, g: string, l: string, ct: ContentType): seq<string> {
    IdsAt(LocationOf(GroupOf(s, g), l), ct)
  }

  /** The innermost level of the insert: append to (or create) the list for `ct`. */
  function InsertAtLocation(ls: LocationState, ct: ContentType, id: string): (r: LocationState)
    ensures (Valid(ls) && forall c :: c in ls.vals ==> ls.vals[c] != []) ==> LocationWellFormed(r)
    ensures IdsAt(r, ct) == IdsAt(ls, ct) + [id]
    ensures forall c | c != ct :: IdsAt(r, c) == IdsAt(ls, c)
  {
    Put(ls, ct, IdsAt(ls, ct) + [id])
  }

  /** The middle level of the insert: insert at location `l`, creating it if missing. */
  function InsertAtGroup(gs: GroupState, l: string, ct: ContentType, id: string): (r: GroupState)
    ensures (Valid(gs) && forall l' :: l' in gs.vals ==> LocationWellFormed(gs.vals[l'])) ==> GroupWellFormed(r)
    ensures IdsAt(LocationOf(r, l), ct) == IdsAt(LocationOf(gs, l), ct) + [id]
    ensures forall l', c | (l', c) != (l, ct) :: IdsAt(LocationOf(r, l'), c) == IdsAt(LocationOf(gs, l'), c)
  {
    var r := Put(gs, l, InsertAtLocation(LocationOf(gs, l), ct, id));
    assert forall l' | l' != l :: LocationOf(r, l') == LocationOf(gs, l');
    r
  }

  /** A group looked up in a well-formed state, or the empty one, has well-formed
      locations. */
  lemma GroupOfWellFormed(s: IntendedState, g: string)
    requires WellFormed(s)
    ensures Valid(GroupOf(s, g))
    ensures forall l :: l in GroupOf(s, g).vals ==> LocationWellFormed(GroupOf(s, g).vals[l])
  {
    if g in s.vals {
      assert GroupWellFormed(s.vals[g]);
    }
  }

  lemma PutGroupWellFormed(s: IntendedState, g: string, gs: GroupState)
    requires WellFormed(s) && GroupWellFormed(gs)
    ensures WellFormed(Put(s, g, gs))
  {
  }

  /** update_local_protectsurface_intended_state: append `id` to the list at (g, l, ct),
      creating whichever of the three levels is missing. */
  function Insert(s: IntendedState, g: string, l: string, ct: ContentType, id: string): (r: IntendedState)
    ensures WellFormed(s) ==> WellFormed(r)
    ensures Entries(r, g, l, ct) == Entries(s, g, l, ct) + [id]
    ensures forall g', l', ct' | (g', l', ct') != (g, l, ct) ::
              Entries(r, g', l', ct') == Entries(s, g', l', ct')
    ensures r.vals.Keys == s.vals.Keys + {g}
    ensures forall g' | g' in s.vals && g' != g :: r.vals[g'] == s.vals[g']
  {
    var gs := InsertAtGroup(GroupOf(s, g), l, ct, id);
    var r := Put(s, g, gs);
    assert forall g' | g' != g :: GroupOf(r, g') == GroupOf(s, g');
    assert WellFormed(s) ==> WellFormed(r) by {
      if WellFormed(s) {
        GroupOfWellFormed(s, g);
        PutGroupWellFormed(s, g, gs);
      }
    }
    r
  }

  /** At every level a new key goes last in the dictionary's order and an existing one
      keeps its place: this order decides the order of the upserts and of `states`. */
  lemma InsertKeyOrder(s: IntendedState, g: string, l: string, ct: ContentType, id: string)
    ensures Insert(s, g, l, ct, id).keys == if g in s.vals then s.keys else s.keys + [g]
    ensures var gs, r := GroupOf(s, g), GroupOf(Insert(s, g, l, ct, id), g);
            r.keys == if l in gs.vals then gs.keys else gs.keys + [l]
    ensures var ls, r := LocationOf(GroupOf(s, g), l), LocationOf(GroupOf(Insert(s, g, l, ct, id), g), l);
            r.keys == if ct in ls.vals then ls.keys else ls.keys + [ct]
  {
    var gs := InsertAtGroup(GroupOf(s, g), l, ct, id);
    assert GroupOf(Insert(s, g, l, ct, id), g) == gs;
    assert LocationOf(gs, l) == InsertAtLocation(LocationOf(GroupOf(s, g), l), ct, id);
  }

  /** After an insert the three levels (g, l, ct) exist, whichever were missing. */
  lemma InsertCreatesLevels(s: IntendedState, g: string, l: string, ct: ContentType, id: string)
    ensures var r := Insert(s, g, l, ct, id);
            g in r.vals && l in r.vals[g].vals && ct in r.vals[g].vals[l].vals
  {
    var gs := InsertAtGroup(GroupOf(s, g), l, ct, id);
    assert Insert(s, g, l, ct, id).vals[g] == gs;
    assert gs.vals[l] == InsertAtLocation(LocationOf(GroupOf(s, g), l), ct, id);
  }

  /** Every list of `s` is a prefix of the same list in `r`: nothing was removed,
      reordered or replaced, only appended. */
  ghost predicate Extends(s: IntendedState, r: IntendedState) {
    forall g, l, ct :: Entries(s, g, l, ct) <= Entries(r, g, l, ct)
  }

  lemma ExtendsTransitive(s: IntendedState, t: IntendedState, u: IntendedState)
    requires Extends(s, t) && Extends(t, u)
    ensures Extends(s, u)
  {
    forall g, l, ct ensures Entries(s, g, l, ct) <= Entries(u, g, l, ct) {
      assert Entries(s, g, l, ct) <= Entries(t, g, l, ct);
      assert Entries(t, g, l, ct) <= Entries(u, g, l, ct);
    }
  }

  /** An insert only appends. */
  lemma InsertExtends(s: IntendedState, g: string, l: string, ct: ContentType, id: string)
    ensures Extends(s, Insert(s, g, l, ct, id))
  {
    var r := Insert(s, g, l, ct, id);
    forall g', l', ct' ensures Entries(s, g', l', ct') <= Entries(r, g', l', ct') {
      if (g', l', ct') != (g, l, ct) {
        assert Entries(r, g', l', ct') == Entries(s, g', l', ct');
      }
    }
  }

  /** In a well-formed state a content type is present exactly when it holds identifiers. */
  lemma PresentIffRecorded(s: IntendedState, g: string, l: string, ct: ContentType)
    requires WellFormed(s)
    ensures (g in s.vals && l in s.vals[g].vals && ct in s.vals[g].vals[l].vals) <==> Entries(s, g, l, ct) != []
  {
  }
}
