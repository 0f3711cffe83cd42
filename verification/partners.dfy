/** The partner directory: an ordered list of referral partners that never
    grows past `MAX_PARTNERS` through its own actions. */
module Partners {
  import opened Wrappers
  import opened Seqs
  import opened Social

  datatype Partner = Partner(
    id: string,
    email: string,
    name: string,
    business: string,
    slogan: string,
    category: string,
    image: string,
    phone: Option<string>,
    website: Option<string>,
    social: Option<Links>,
    available: Option<bool>)

  /** Maximum number of partners allowed. */
  const MAX_PARTNERS: nat := 10

  /** The store's state; `maxPartners` is read by `AddPartner`, while
      `SetPartners` and `HasAvailableSlots` compare against the constant. */
  datatype PartnersState = PartnersState(partners: seq<Partner>, maxPartners: int)

  datatype PartnersError = MaxPartnersReached

  const INITIAL_PARTNERS: seq<Partner> := [
    Partner("1", "sarah@example.com", "Sarah Chen", "Evergreen Financial Planning",
      "Building Wealth, Securing Futures", "Financial Advisor",
      "https://images.unsplash.com/photo-1573497019940-1c28c88b4f3e?w=400&q=80",
      Some("(425) 555-0123"), Some("www.evergreenfinancial.com"),
      Some(map[LinkedIn := "linkedin.com/in/sarahchen", Facebook := "facebook.com/evergreenfinancial"]),
      Some(false)),
    Partner("2", "michael@example.com", "Michael Rodriguez", "Elite Real Estate Group",
      "Your Dream Home Awaits", "Real Estate Agent",
      "https://images.unsplash.com/photo-1560250097-0b93528c311a?w=400&q=80",
      Some("(206) 555-0456"), Some("www.eliterealestate.com"),
      Some(map[LinkedIn := "linkedin.com/in/michaelrodriguez", Facebook := "facebook.com/eliterealestate"]),
      Some(false)),
    Partner("3", "jennifer@example.com", "Jennifer Park", "Bright Smile Dental",
      "Creating Beautiful Smiles Daily", "Dentist",
      "https://images.unsplash.com/photo-1559839734-2b71ea197ec2?w=400&q=80",
      Some("(425) 555-0789"), Some("www.brightsmile.com"),
      Some(map[Instagram := "instagram.com/brightsmile", Facebook := "facebook.com/brightsmile"]),
      Some(false)),
    Partner("4", "david@example.com", "David Thompson", "Thompson Law Firm",
      "Justice Served with Excellence", "Business Attorney",
      "https://images.unsplash.com/photo-1556157382-97eda2d62296?w=400&q=80",
      Some("(206) 555-1234"), Some("www.thompsonlaw.com"),
      Some(map[LinkedIn := "linkedin.com/in/davidthompson", Facebook := "facebook.com/thompsonlaw"]),
      Some(false)),
    Partner("5", "lisa@example.com", "Lisa Martinez", "Digital Marketing Solutions",
      "Growing Your Digital Presence", "Digital Marketing",
      "https://images.unsplash.com/photo-1580489944761-15a19d654956?w=400&q=80",
      Some("(425) 555-5678"), Some("www.digitalmktg.com"),
      Some(map[Instagram := "instagram.com/digitalmktg", LinkedIn := "linkedin.com/in/lisamartinez"]),
      Some(false))
  ]

  const Initial: PartnersState := PartnersState(INITIAL_PARTNERS, MAX_PARTNERS)

  /** The directory invariant: the configured cap is the constant and is respected. */
  predicate Valid(s: PartnersState) {
    s.maxPartners == MAX_PARTNERS && |s.partners| <= MAX_PARTNERS
  }

  /** Selects the partners carrying `id`. */
  function IdIs(id: string): Partner -> bool {
    (p: Partner) => p.id == id
  }

  /** Selects the partners not carrying `id`. */
  function IdIsNot(id: string): Partner -> bool {
    (p: Partner) => p.id != id
  }

  /** Bulk replace, ignored when the new list is over the cap. */
  function SetPartners(s: PartnersState, ps: seq<Partner>): (r: PartnersState)
    ensures |ps| <= MAX_PARTNERS ==> r.partners == ps
    ensures |ps| > MAX_PARTNERS ==> r == s
    ensures r.maxPartners == s.maxPartners
  {
    if |ps| <= MAX_PARTNERS then s.(partners := ps) else s
  }

  /** Appends a partner, rejecting when the list already holds `maxPartners`. */
  function AddPartner(s: PartnersState, p: Partner): (r: Result<PartnersState, PartnersError>)
    ensures r.Err? <==> |s.partners| >= s.maxPartners
    ensures r.Err? ==> r.error == MaxPartnersReached
    ensures r.Ok? ==> |r.value.partners| == |s.partners| + 1
    ensures r.Ok? ==> r.value.partners[..|s.partners|] == s.partners
    ensures r.Ok? ==> r.value.partners[|s.partners|] == p
    ensures r.Ok? ==> r.value.maxPartners == s.maxPartners
  {
    if |s.partners| >= s.maxPartners then Err(MaxPartnersReached)
    else Ok(s.(partners := s.partners + [p]))
  }

  /** Drops every partner with the given id, keeping the others in order. */
  function RemovePartner(s: PartnersState, id: string): (r: PartnersState)
    ensures forall i :: 0 <= i < |r.partners| ==> r.partners[i].id != id && r.partners[i] in s.partners
    ensures forall i :: 0 <= i < |s.partners| && s.partners[i].id != id ==> s.partners[i] in r.partners
    ensures (forall i :: 0 <= i < |s.partners| ==> s.partners[i].id != id) ==> r == s
    ensures |r.partners| <= |s.partners| && r.maxPartners == s.maxPartners
  {
    s.(partners := Filter(s.partners, IdIsNot(id)))
  }

  /** The first partner with the given id, if any. */
  function GetPartnerById(s: PartnersState, id: string): (r: Option<Partner>)
    ensures r.None? <==> forall i :: 0 <= i < |s.partners| ==> s.partners[i].id != id
    ensures r.Some? ==>
      exists i :: 0 <= i < |s.partners| && s.partners[i] == r.value && r.value.id == id &&
        forall j :: 0 <= j < i ==> s.partners[j].id != id
  {
    FindFirst(s.partners, IdIs(id))
  }

  /** Empties the directory. */
  function ClearPartners(s: PartnersState): (r: PartnersState)
    ensures r.partners == [] && r.maxPartners == s.maxPartners
  {
    s.(partners := [])
  }

  /** Whether another partner fits under the constant cap. */
  function HasAvailableSlots(s: PartnersState): bool {
    |s.partners| < MAX_PARTNERS
  }

  /** The number of partners held. */
  function GetUsedSlots(s: PartnersState): nat {
    |s.partners|
  }

  /** Replaces every partner whose id matches `p.id` by `p`. */
  function UpdatePartner(s: PartnersState, p: Partner): (r: PartnersState)
    ensures |r.partners| == |s.partners| && r.maxPartners == s.maxPartners
    ensures forall i :: 0 <= i < |s.partners| && s.partners[i].id == p.id ==> r.partners[i] == p
    ensures forall i :: 0 <= i < |s.partners| && s.partners[i].id != p.id ==> r.partners[i] == s.partners[i]
  {
    s.(partners := MapWhere(s.partners, IdIs(p.id), _ => p))
  }

  /** The actions a caller can take on the directory. */
  datatype Action =
    | SetAll(ps: seq<Partner>)
    | Add(p: Partner)
    | Remove(id: string)
    | Update(p: Partner)
    | Clear

  /** One action; a rejected `Add` leaves the state as it was. */
  function Step(s: PartnersState, a: Action): PartnersState {
    match a
    case SetAll(ps) => SetPartners(s, ps)
    case Add(p) => (match AddPartner(s, p) case Ok(s') => s' case Err(_) => s)
    case Remove(id) => RemovePartner(s, id)
    case Update(p) => UpdatePartner(s, p)
    case Clear => ClearPartners(s)
  }

  /** A sequence of actions, applied left to right. */
  function Run(s: PartnersState, acts: seq<Action>): PartnersState
    decreases |acts|
  {
    if acts == [] then s else Run(Step(s, acts[0]), acts[1..])
  }

  /** The seeded directory holds five partners and satisfies the invariant. */
  lemma InitialValid()
    ensures Valid(Initial) && GetUsedSlots(Initial) == 5 && HasAvailableSlots(Initial)
  {
  }

  /** Every action preserves the cap. */
  lemma StepPreservesValid(s: PartnersState, a: Action)
    requires Valid(s)
    ensures Valid(Step(s, a))
  {
  }

  /** Any sequence of actions from a valid directory keeps it valid; in
      particular every state reachable from the seed is within the cap. */
  lemma {:induction false} RunPreservesValid(s: PartnersState, acts: seq<Action>)
    requires Valid(s)
    ensures Valid(Run(s, acts))
    decreases |acts|
  {
    if acts != [] {
      StepPreservesValid(s, acts[0]);
      RunPreservesValid(Step(s, acts[0]), acts[1..]);
    }
  }

  /** Every state reachable from the seed by any actions is within the cap. */
  lemma ReachableValid(acts: seq<Action>)
    ensures Valid(Run(Initial, acts))
    ensures GetUsedSlots(Run(Initial, acts)) <= MAX_PARTNERS
  {
    InitialValid();
    RunPreservesValid(Initial, acts);
  }

  /** On a valid directory, `AddPartner` succeeds exactly when a slot is
      free, and a successful add uses up one slot. */
  lemma AddPartnerMatchesSlots(s: PartnersState, p: Partner)
    requires Valid(s)
    ensures AddPartner(s, p).Ok? <==> HasAvailableSlots(s)
    ensures AddPartner(s, p).Ok? ==> GetUsedSlots(AddPartner(s, p).value) == GetUsedSlots(s) + 1
    ensures AddPartner(s, p).Err? ==> GetUsedSlots(s) == MAX_PARTNERS
  {
  }

  /** Slot accounting: used slots never exceed the cap, and a slot is free
      exactly when fewer than `MAX_PARTNERS` are used. */
  lemma SlotAccounting(s: PartnersState)
    requires Valid(s)
    ensures GetUsedSlots(s) <= MAX_PARTNERS
    ensures HasAvailableSlots(s) <==> GetUsedSlots(s) < MAX_PARTNERS
  {
  }

  /** After clearing, no slot is used and a slot is free. */
  lemma ClearFreesSlots(s: PartnersState, id: string)
    ensures GetUsedSlots(ClearPartners(s)) == 0 && HasAvailableSlots(ClearPartners(s))
    ensures GetPartnerById(ClearPartners(s), id).None?
  {
  }

  /** Removal drops exactly the entries carrying the id: their count plus
      the survivors' is the old length, and removal commutes with appending. */
  lemma RemovePartnerCount(s: PartnersState, id: string, more: seq<Partner>)
    ensures |RemovePartner(s, id).partners| + |Filter(s.partners, IdIs(id))| == |s.partners|
    ensures RemovePartner(s.(partners := s.partners + more), id).partners
      == RemovePartner(s, id).partners + Filter(more, IdIsNot(id))
  {
    FilterPartition(s.partners, IdIsNot(id), IdIs(id));
    FilterConcat(s.partners, more, IdIsNot(id));
  }

  /** After removal, no lookup finds the id; lookups of other ids are unaffected. */
  lemma {:induction false} RemovePartnerLookup(s: PartnersState, id: string, other: string)
    requires other != id
    ensures GetPartnerById(RemovePartner(s, id), id).None?
    ensures GetPartnerById(RemovePartner(s, id), other) == GetPartnerById(s, other)
    decreases |s.partners|
  {
    if s.partners != [] {
      var t := s.(partners := s.partners[1..]);
      RemovePartnerLookup(t, id, other);
      if s.partners[0].id != id {
        assert RemovePartner(s, id).partners[1..] == RemovePartner(t, id).partners;
      }
    }
  }

  /** After an update, looking up `p.id` yields `p` when some entry had that
      id (and nothing otherwise); lookups of other ids are unaffected. */
  lemma UpdatePartnerLookup(s: PartnersState, p: Partner, other: string)
    requires other != p.id
    ensures GetPartnerById(s, p.id).Some? ==> GetPartnerById(UpdatePartner(s, p), p.id) == Some(p)
    ensures GetPartnerById(s, p.id).None? ==> UpdatePartner(s, p) == s
    ensures GetPartnerById(UpdatePartner(s, p), other) == GetPartnerById(s, other)
  {
    FindFirstMapWhere(s.partners, IdIs(p.id), _ => p);
    FindFirstMapWhereOther(s.partners, IdIs(p.id), _ => p, IdIs(other));
  }

  /** After a successful add, the new partner is found by its id unless an
      earlier entry already carried it. */
  lemma AddPartnerLookup(s: PartnersState, p: Partner)
    requires AddPartner(s, p).Ok?
    ensures GetPartnerById(s, p.id).None? ==> GetPartnerById(AddPartner(s, p).value, p.id) == Some(p)
    ensures GetPartnerById(s, p.id).Some? ==> GetPartnerById(AddPartner(s, p).value, p.id) == GetPartnerById(s, p.id)
  {
    FindFirstAppend(s.partners, p, IdIs(p.id));
  }

  /** A full directory rejects an add and is left unchanged by the step. */
  lemma FullRejectsAdd(s: PartnersState, p: Partner)
    requires Valid(s) && GetUsedSlots(s) == MAX_PARTNERS
    ensures AddPartner(s, p) == Err(MaxPartnersReached)
    ensures Step(s, Add(p)) == s
  {
  }
}
