/** The records the REST API sends: users and notes ("posts"). */
module Entities {
  import opened Common

  /** A user profile. `premiumExpiresAt` is the expiry instant, in the same
      unit as the clock value `ApplyPremiumExpiry` is given. */
  datatype User = User(
    id: string,
    name: string,
    email: string,
    profilePicture: Option<string>,
    creator: bool,
    premium: bool,
    premiumExpiresAt: Option<int>,
    blocked: bool)

  /** A note as the lists show it. */
  datatype Post = Post(
    id: string,
    title: string,
    description: string,
    subject: string,
    approved: bool,
    likeCount: int,
    hasLiked: bool)

  /** The user object a toggle endpoint answers with; a field it lacks is None.
      Spreading it over a user (`{ ...u, ...updatedUser }`) is Merge. */
  datatype UserPatch = UserPatch(
    id: Option<string>,
    name: Option<string>,
    email: Option<string>,
    profilePicture: Option<Option<string>>,
    creator: Option<bool>,
    premium: Option<bool>,
    premiumExpiresAt: Option<Option<int>>,
    blocked: Option<bool>)

  function Pick<T>(patch: Option<T>, current: T): T
  {
    if patch.Some? then patch.value else current
  }

  /** `{ ...u, ...patch }`: every field the patch carries wins, every other
      field keeps the user's value. */
  function Merge(u: User, p: UserPatch): (r: User)
    ensures p.creator.Some? ==> r.creator == p.creator.value
    ensures p.creator.None? ==> r.creator == u.creator
    ensures p.premium.Some? ==> r.premium == p.premium.value
    ensures p.premium.None? ==> r.premium == u.premium
    ensures p.blocked.Some? ==> r.blocked == p.blocked.value
    ensures p.blocked.None? ==> r.blocked == u.blocked
    ensures p.id.None? ==> r.id == u.id
  {
    User(Pick(p.id, u.id), Pick(p.name, u.name), Pick(p.email, u.email),
         Pick(p.profilePicture, u.profilePicture), Pick(p.creator, u.creator),
         Pick(p.premium, u.premium), Pick(p.premiumExpiresAt, u.premiumExpiresAt),
         Pick(p.blocked, u.blocked))
  }

  /** The patch that carries every field of `v`. */
  function FullPatch(v: User): UserPatch
  {
    UserPatch(Some(v.id), Some(v.name), Some(v.email), Some(v.profilePicture),
              Some(v.creator), Some(v.premium), Some(v.premiumExpiresAt), Some(v.blocked))
  }

  /** Spreading the same patch twice is spreading it once. */
  lemma MergeIdempotent(u: User, p: UserPatch)
    ensures Merge(Merge(u, p), p) == Merge(u, p)
  {
  }

  /** Spreading a complete user object replaces the user wholesale. */
  lemma MergeFullPatch(u: User, v: User)
    ensures Merge(u, FullPatch(v)) == v
  {
  }

  /** The empty patch changes nothing. */
  lemma MergeEmptyPatch(u: User)
    ensures Merge(u, UserPatch(None, None, None, None, None, None, None, None)) == u
  {
  }

  /** The lazy expiry condition: premium, an expiry instant is set, and the
      clock is past it (`new Date() > new Date(premiumExpiresAt)`). */
  predicate PremiumExpired(u: User, now: int)
  {
    u.premium && u.premiumExpiresAt.Some? && now > u.premiumExpiresAt.value
  }

  /** The downgrade a fetched profile gets before it is stored. */
  function ApplyPremiumExpiry(u: User, now: int): (r: User)
    ensures r == u <==> !PremiumExpired(u, now)
    ensures PremiumExpired(u, now) ==> !r.premium && r.premiumExpiresAt == None
    ensures r.(premium := u.premium, premiumExpiresAt := u.premiumExpiresAt) == u
    ensures !PremiumExpired(r, now)
  {
    if PremiumExpired(u, now) then u.(premium := false, premiumExpiresAt := None) else u
  }

  /** A profile is downgraded at most once: applying the rule again changes nothing. */
  lemma PremiumExpiryIdempotent(u: User, now: int)
    ensures ApplyPremiumExpiry(ApplyPremiumExpiry(u, now), now) == ApplyPremiumExpiry(u, now)
  {
  }
}
