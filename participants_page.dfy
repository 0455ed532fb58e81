/**
 * The participants directory (client/src/pages/participants.tsx): a
 * case-insensitive search over name and company combined with a user-type
 * filter. The type label is Display.UserTypeLabel.
 */
module ParticipantsPage {
  import opened Wrappers
  import opened ApiTypes
  import Seqs
  import Text

  /** `field?.toLowerCase().includes(term.toLowerCase())`: a missing field never matches. */
  function FieldMatches(field: Option<string>, term: string): bool {
    field.Some? && Text.Contains(Text.Lower(field.value), Text.Lower(term))
  }

  function TypeMatches(typeFilter: string, u: ApiUser): bool {
    typeFilter == "all" || u.userType == typeFilter
  }

  function Keep(term: string, typeFilter: string): ApiUser -> bool {
    (u: ApiUser) => (FieldMatches(u.name, term) || FieldMatches(u.company, term)) && TypeMatches(typeFilter, u)
  }

  /**
   * `filteredUsers`: a user is kept exactly when name or company contains the
   * term, ignoring case, and the type filter admits it; order is kept.
   */
  function FilteredUsers(us: seq<ApiUser>, term: string, typeFilter: string): (r: seq<ApiUser>)
    ensures Seqs.IsSubsequence(r, us)
    ensures forall u :: u in r <==> (u in us && (FieldMatches(u.name, term) || FieldMatches(u.company, term)) &&
                                     TypeMatches(typeFilter, u))
  {
    Seqs.FilterIsSubsequence(us, Keep(term, typeFilter));
    Seqs.Filter(us, Keep(term, typeFilter))
  }

  /** Terms that lower-case alike select the same users, in the same order. */
  lemma SearchIgnoresCase(us: seq<ApiUser>, term1: string, term2: string, typeFilter: string)
    requires Text.Lower(term1) == Text.Lower(term2)
    ensures FilteredUsers(us, term1, typeFilter) == FilteredUsers(us, term2, typeFilter)
  {
    Seqs.FilterCongruent(us, Keep(term1, typeFilter), Keep(term2, typeFilter));
  }

  /** In particular, typing the term in capitals changes nothing. */
  lemma UpperCaseTermSameResult(us: seq<ApiUser>, term: string, typeFilter: string)
    ensures FilteredUsers(us, Text.Upper(term), typeFilter) == FilteredUsers(us, term, typeFilter)
  {
    Text.LowerForgetsCase(term);
    SearchIgnoresCase(us, Text.Upper(term), term, typeFilter);
  }

  /**
   * The empty initial search keeps every user that has a name or a company
   * (and passes the type filter); a user with neither is never listed.
   */
  lemma EmptySearchKeepsNamed(us: seq<ApiUser>, typeFilter: string)
    ensures forall u :: u in FilteredUsers(us, "", typeFilter) <==>
                          u in us && (u.name.Some? || u.company.Some?) && TypeMatches(typeFilter, u)
  {
    forall u: ApiUser
      ensures FieldMatches(u.name, "") == u.name.Some? && FieldMatches(u.company, "") == u.company.Some?
    {
      if u.name.Some? {
      }
      if u.company.Some? {
      }
    }
  }
}
