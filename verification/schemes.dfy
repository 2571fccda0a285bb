/**
 * The scheme catalogue: a case-insensitive search over name and description,
 * ANDed with a category filter; the category icon; and the "only a Citizen
 * may apply" gate with the matching `disabled` state of the Apply button.
 */
module Schemes {
  import opened Wrappers
  import opened Auth
  import Strings
  import Seqs
  import Ui

  datatype CategoryIcon = Users | Heart | GraduationCap | Home | Briefcase | FileText

  /** A catalogue card (benefits, applicant count, status and deadline are display-only and omitted). */
  datatype Scheme = Scheme(id: string, name: string, description: string, category: string,
                           eligibility: string, icon: CategoryIcon)

  const MockSchemes: seq<Scheme> := [
    Scheme("1", "PM Kisan Samman Nidhi",
           "Direct income support of ₹6,000 per year to small and marginal farmers",
           "Agriculture", "Farmers with landholding up to 2 hectares", Users),
    Scheme("2", "Ayushman Bharat",
           "Health insurance coverage up to ₹5 lakhs per family per year",
           "Healthcare", "Families listed in SECC 2011 database", Heart),
    Scheme("3", "Digital India Initiative",
           "Digital literacy and infrastructure development program",
           "Education", "All citizens for digital services", GraduationCap),
    Scheme("4", "Pradhan Mantri Awas Yojana",
           "Affordable housing for economically weaker sections",
           "Housing", "EWS/LIG families without pucca house", Home),
    Scheme("5", "Mudra Yojana",
           "Micro-financing for small business enterprises",
           "Business", "Non-corporate, non-farm small/micro enterprises", Briefcase)
  ]

  /** The category buttons, "All" first. */
  const Categories: seq<string> := ["All", "Agriculture", "Healthcare", "Education", "Housing", "Business"]

  /** The lower-cased term occurs in the lower-cased name or description. */
  predicate MatchesSearch(s: Scheme, term: string) {
    var t := Strings.Lower(term);
    Strings.Includes(Strings.Lower(s.name), t) || Strings.Includes(Strings.Lower(s.description), t)
  }

  predicate MatchesCategory(s: Scheme, category: string) {
    category == "All" || s.category == category
  }

  predicate Shown(s: Scheme, term: string, category: string) {
    MatchesSearch(s, term) && MatchesCategory(s, category)
  }

  /**
   * `filteredSchemes`: the order-preserving subsequence of `schemes` matching
   * both the search term and the selected category, each as often as it is listed.
   */
  function FilterSchemes(schemes: seq<Scheme>, term: string, category: string): (r: seq<Scheme>)
    ensures Seqs.IsSubsequence(r, schemes)
    ensures forall i :: 0 <= i < |r| ==> r[i] in schemes && MatchesSearch(r[i], term) && MatchesCategory(r[i], category)
    ensures forall i :: 0 <= i < |schemes| && MatchesSearch(schemes[i], term) && MatchesCategory(schemes[i], category)
                        ==> schemes[i] in r
    ensures forall i :: 0 <= i < |schemes| ==>
              multiset(r)[schemes[i]] == (if Shown(schemes[i], term, category) then multiset(schemes)[schemes[i]] else 0)
  {
    Seqs.Filter(schemes, s => Shown(s, term, category))
  }

  /**
   * The search reads the name and description only: changing a scheme's
   * category or eligibility text never changes whether a term finds it.
   */
  lemma SearchIgnoresCategoryAndEligibility(s: Scheme, term: string, category: string, eligibility: string)
    ensures MatchesSearch(s.(category := category, eligibility := eligibility), term) == MatchesSearch(s, term)
  {
  }

  /** With an empty term and "All", the whole catalogue is shown in order. */
  lemma UnfilteredCatalogueIsWhole(schemes: seq<Scheme>)
    ensures FilterSchemes(schemes, "", "All") == schemes
  {
    forall i | 0 <= i < |schemes|
      ensures Shown(schemes[i], "", "All")
    {
      Strings.IncludesEmpty(Strings.Lower(schemes[i].name));
    }
    Seqs.FilterKeepsAll(schemes, s => Shown(s, "", "All"));
  }

  /** Re-filtering the shown list with the same term and category leaves it unchanged. */
  lemma FilterSchemesIdempotent(schemes: seq<Scheme>, term: string, category: string)
    ensures FilterSchemes(FilterSchemes(schemes, term, category), term, category)
            == FilterSchemes(schemes, term, category)
  {
    Seqs.FilterIdempotent(schemes, s => Shown(s, term, category));
  }

  /** Picking a category narrows the "All" list for the same term, keeping its order. */
  lemma CategoryNarrowsAll(schemes: seq<Scheme>, term: string, category: string)
    ensures Seqs.IsSubsequence(FilterSchemes(schemes, term, category), FilterSchemes(schemes, term, "All"))
  {
    Seqs.FilterMonotone(schemes, s => Shown(s, term, category), s => Shown(s, term, "All"));
  }

  /** `getCategoryIcon`: the five named categories, and FileText for any other string. */
  function CategoryIconOf(category: string): (r: CategoryIcon)
    ensures r == FileText <==> category !in Categories[1..]
  {
    match category
    case "Agriculture" => Users
    case "Healthcare" => Heart
    case "Education" => GraduationCap
    case "Housing" => Home
    case "Business" => Briefcase
    case _ => FileText
  }

  /**
   * Each demo scheme's own icon is the one `getCategoryIcon` gives its
   * category, and the five category buttons after "All" get five different icons.
   */
  lemma CategoryIconsAgree()
    ensures forall i :: 0 <= i < |MockSchemes| ==> MockSchemes[i].icon == CategoryIconOf(MockSchemes[i].category)
    ensures forall i, j :: 1 <= i < j < |Categories| ==> CategoryIconOf(Categories[i]) != CategoryIconOf(Categories[j])
  {
  }

  /** `user?.role !== "Citizen"`: who may not apply (a signed-out visitor included). */
  predicate ApplyDisabled(user: Option<User>) {
    !HasRole(user, CitizenRole)
  }

  /**
   * `handleApply`: a destructive "Access Denied" for anyone but a Citizen;
   * "Application Started" for a Citizen. Nothing else happens.
   */
  function HandleApply(user: Option<User>, schemeName: string): (r: Ui.Event)
    ensures r.Toast?
    ensures r.destructive <==> !(user.Some? && user.value.role == "Citizen")
    ensures r.title == (if r.destructive then "Access Denied" else "Application Started")
  {
    if !HasRole(user, CitizenRole) then Ui.Toast("Access Denied", true)
    else Ui.Toast("Application Started", false)
  }

  /**
   * The Apply button is disabled for exactly the users the handler would
   * refuse, so an enabled button always starts an application; which users
   * those are does not depend on the scheme.
   */
  lemma ApplyButtonMatchesGate(user: Option<User>, schemeName: string)
    ensures ApplyDisabled(user) <==> HandleApply(user, schemeName).destructive
    ensures !ApplyDisabled(user) ==> HandleApply(user, schemeName) == Ui.Toast("Application Started", false)
    ensures ApplyDisabled(user) <==> user.None? || user.value.role != CitizenRole
  {
  }
}
