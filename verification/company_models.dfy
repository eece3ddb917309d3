/** The game-info screen's company list: the involved companies ordered by
    role and logo, each turned into a display model with a roles line and
    a logo size. The feature-info factory and its older copy in the app
    module share this logic. */
module CompanyModels {
  import opened Results
  import opened Text
  import opened Lists
  import opened Entities

  datatype Role = Developer | Publisher | Porter | Supporting

  const COMPANY_ROLE_SEPARATOR := ", "

  /** Whether the company has a logo. */
  predicate HasLogo(c: InvolvedCompany) { c.company.logo.Some? }

  /** What the factory reads from its context and collaborators: the logo
      view's dimensions, the role strings, the logo url builder, and the
      two rounded float computations of the logo size. */
  datatype Resources = Resources(
    maxLogoWidth: int,
    maxLogoHeight: int,
    roleName: Role -> string,
    logoUrl: Image -> string,
    adjustedWidth: (int, int, int) -> int,
    shrunkHeight: (int, int, int) -> int)

  datatype CompanyModel = CompanyModel(
    logoViewSize: (int, int),
    logoImageSize: (int, int),
    logoUrl: Option<string>,
    websiteUrl: string,
    name: string,
    roles: string)

  function Bit(b: bool): int { if b then 1 else 0 }

  /** The comparator as one number: developer first, then publisher, then
      porter, then a company with a logo. A larger rank comes first. */
  function Rank(c: InvolvedCompany): int {
    8 * Bit(c.isDeveloper) + 4 * Bit(c.isPublisher) + 2 * Bit(c.isPorter) + Bit(HasLogo(c))
  }

  function SortKey(c: InvolvedCompany): int { -Rank(c) }

  /** `a` comes no later than `b` under the chained descending comparator. */
  predicate ComesFirst(a: InvolvedCompany, b: InvolvedCompany) {
    if a.isDeveloper != b.isDeveloper then a.isDeveloper
    else if a.isPublisher != b.isPublisher then a.isPublisher
    else if a.isPorter != b.isPorter then a.isPorter
    else HasLogo(a) || !HasLogo(b)
  }

  /** The rank orders companies exactly as the comparator chain does. */
  lemma RankMatchesComparator(a: InvolvedCompany, b: InvolvedCompany)
    ensures Rank(a) >= Rank(b) <==> ComesFirst(a, b)
  {
  }

  /** `sortedWith(comparator)`: a stable sort. */
  function Ordered(companies: seq<InvolvedCompany>): (r: seq<InvolvedCompany>)
    ensures multiset(r) == multiset(companies)
    ensures forall i, j :: 0 <= i < j < |r| ==> ComesFirst(r[i], r[j])
  {
    var r := SortBy(companies, SortKey);
    assert forall i, j :: 0 <= i < j < |r| ==> ComesFirst(r[i], r[j]) by {
      forall i, j | 0 <= i < j < |r| ensures ComesFirst(r[i], r[j]) {
        RankMatchesComparator(r[i], r[j]);
      }
    }
    r
  }

  /** Companies the comparator cannot tell apart keep their input order. */
  lemma TiesKeepInputOrder(companies: seq<InvolvedCompany>, rank: int)
    ensures WithKey(Ordered(companies), SortKey, -rank) == WithKey(companies, SortKey, -rank)
  {
    SortByIsStable(companies, SortKey, -rank);
  }

  /** The position of a role in the roles line. */
  function RoleRank(role: Role): int {
    match role
    case Developer => 0
    case Publisher => 1
    case Porter => 2
    case Supporting => 3
  }

  /** Roles listed in the fixed order, each at most once. */
  predicate InRoleOrder(r: seq<Role>) {
    forall i, j :: 0 <= i < j < |r| ==> RoleRank(r[i]) < RoleRank(r[j])
  }

  /** One conditional `add` of the roles list. */
  function RoleIf(plays: bool, role: Role): seq<Role> {
    if plays then [role] else []
  }

  /** Whatever the flags, the four conditional adds list the roles in the
      fixed order. */
  lemma {:induction false} RoleAddsInOrder(c: InvolvedCompany)
    ensures InRoleOrder(RoleIf(c.isDeveloper, Developer) + RoleIf(c.isPublisher, Publisher) +
                        RoleIf(c.isPorter, Porter) + RoleIf(c.isSupporting, Supporting))
  {
    var r := RoleIf(c.isDeveloper, Developer) + RoleIf(c.isPublisher, Publisher) +
             RoleIf(c.isPorter, Porter) + RoleIf(c.isSupporting, Supporting);
    if c.isDeveloper {
      if c.isPublisher {
        if c.isPorter {
          if c.isSupporting { assert r == [Developer, Publisher, Porter, Supporting]; }
          else { assert r == [Developer, Publisher, Porter]; }
        } else {
          if c.isSupporting { assert r == [Developer, Publisher, Supporting]; }
          else { assert r == [Developer, Publisher]; }
        }
      } else {
        if c.isPorter {
          if c.isSupporting { assert r == [Developer, Porter, Supporting]; }
          else { assert r == [Developer, Porter]; }
        } else {
          if c.isSupporting { assert r == [Developer, Supporting]; }
          else { assert r == [Developer]; }
        }
      }
    } else {
      if c.isPublisher {
        if c.isPorter {
          if c.isSupporting { assert r == [Publisher, Porter, Supporting]; }
          else { assert r == [Publisher, Porter]; }
        } else {
          if c.isSupporting { assert r == [Publisher, Supporting]; }
          else { assert r == [Publisher]; }
        }
      } else {
        if c.isPorter {
          if c.isSupporting { assert r == [Porter, Supporting]; }
          else { assert r == [Porter]; }
        } else {
          if c.isSupporting { assert r == [Supporting]; }
          else { assert r == []; }
        }
      }
    }
  }

  /** `createRolesString`'s `buildList`: developer, publisher, porter and
      supporting, each when the company plays it. */
  function Roles(c: InvolvedCompany): (r: seq<Role>)
    ensures InRoleOrder(r)
    ensures Developer in r <==> c.isDeveloper
    ensures Publisher in r <==> c.isPublisher
    ensures Porter in r <==> c.isPorter
    ensures Supporting in r <==> c.isSupporting
    ensures |r| == Bit(c.isDeveloper) + Bit(c.isPublisher) + Bit(c.isPorter) + Bit(c.isSupporting)
  {
    RoleAddsInOrder(c);
    RoleIf(c.isDeveloper, Developer) + RoleIf(c.isPublisher, Publisher) +
    RoleIf(c.isPorter, Porter) + RoleIf(c.isSupporting, Supporting)
  }

  /** The roles list gives back every flag. */
  lemma RolesDetermineFlags(a: InvolvedCompany, b: InvolvedCompany)
    requires Roles(a) == Roles(b)
    ensures a.isDeveloper == b.isDeveloper && a.isPublisher == b.isPublisher
    ensures a.isPorter == b.isPorter && a.isSupporting == b.isSupporting
  {
  }

  /** `createRolesString`: the role names, comma separated. */
  function RolesString(c: InvolvedCompany, roleName: Role -> string): (r: string)
    ensures |Roles(c)| == 0 ==> r == ""
    ensures |Roles(c)| == 1 ==> r == roleName(Roles(c)[0])
    ensures var roles := Roles(c);
            |roles| >= 2 ==>
              r == Join(Map(roles[..|roles| - 1], roleName), COMPANY_ROLE_SEPARATOR) + ", " + roleName(roles[|roles| - 1])
  {
    var roles := Roles(c);
    var names := Map(roles, roleName);
    assert |roles| >= 2 ==> names[..|names| - 1] == Map(roles[..|roles| - 1], roleName);
    Join(names, COMPANY_ROLE_SEPARATOR)
  }

  /** A developer that also publishes reads "developer, publisher". */
  lemma DeveloperAndPublisher(c: InvolvedCompany, roleName: Role -> string)
    requires c.isDeveloper && c.isPublisher && !c.isPorter && !c.isSupporting
    ensures RolesString(c, roleName) == roleName(Developer) + ", " + roleName(Publisher)
  {
    assert Roles(c) == [Developer, Publisher];
    var names := Map(Roles(c), roleName);
    assert names == [roleName(Developer)] + [roleName(Publisher)];
    JoinSnoc([roleName(Developer)], COMPANY_ROLE_SEPARATOR, roleName(Publisher));
  }

  /** A company playing every role lists all four, in the fixed order,
      separated by ", ". */
  lemma AllFourRoles(c: InvolvedCompany, roleName: Role -> string)
    requires c.isDeveloper && c.isPublisher && c.isPorter && c.isSupporting
    ensures RolesString(c, roleName) ==
            roleName(Developer) + ", " + roleName(Publisher) + ", " + roleName(Porter) + ", " + roleName(Supporting)
  {
    var roles := Roles(c);
    assert roles == [Developer, Publisher, Porter, Supporting];
    var d, p, o, u := roleName(Developer), roleName(Publisher), roleName(Porter), roleName(Supporting);
    assert Map(roles[..3], roleName) == [d, p] + [o];
    assert [d, p] == [d] + [p];
    JoinSnoc([d], COMPANY_ROLE_SEPARATOR, p);
    JoinSnoc([d, p], COMPANY_ROLE_SEPARATOR, o);
  }

  /** `calculateLogoImageSize`: without a known logo size the whole logo
      area; otherwise the logo scaled to the area's height, and shrunk to
      its width when that is too wide. */
  function LogoImageSize(c: InvolvedCompany, res: Resources): (size: (int, int))
    ensures size.0 <= res.maxLogoWidth
    ensures (c.company.logo.None? || c.company.logo.value.width.None? || c.company.logo.value.height.None?)
              ==> size == (res.maxLogoWidth, res.maxLogoHeight)
    ensures size.0 < res.maxLogoWidth ==> size.1 == res.maxLogoHeight
  {
    if c.company.logo.None? || c.company.logo.value.width.None? || c.company.logo.value.height.None? then
      (res.maxLogoWidth, res.maxLogoHeight)
    else
      var logo := c.company.logo.value;
      var adjusted := res.adjustedWidth(logo.width.value, logo.height.value, res.maxLogoHeight);
      if adjusted <= res.maxLogoWidth then (adjusted, res.maxLogoHeight)
      else (res.maxLogoWidth, res.shrunkHeight(res.maxLogoWidth, adjusted, res.maxLogoHeight))
  }

  /** Kotlin's `roundToInt` on a finite value: the nearest integer, halves
      rounded up. */
  function RoundToInt(x: real): int {
    (x + 0.5).Floor
  }

  /** The two rounded computations as the factory writes them, taken in
      exact arithmetic: the width the logo takes at the box's height, and
      the height it takes at the box's width. */
  ghost predicate ExactRounding(res: Resources) {
    (forall w, h, m :: h != 0 ==> res.adjustedWidth(w, h, m) == RoundToInt(w as real / h as real * m as real)) &&
    (forall w, a, m :: a != 0 ==> res.shrunkHeight(w, a, m) == RoundToInt(w as real / a as real * m as real))
  }

  /** Scaling by a ratio below one and rounding stays within the bound. */
  lemma ShrinkStaysInside(w: int, a: int, m: int)
    requires 0 < w < a && m >= 0
    ensures 0 <= RoundToInt(w as real / a as real * m as real) <= m
  {
    var ratio := w as real / a as real;
    assert 0.0 < ratio < 1.0;
    var x := ratio * m as real;
    assert 0.0 <= x <= m as real;
    var y := x + 0.5;
    assert y < (m + 1) as real;
    assert y.Floor as real <= y;
    assert (x + 0.5).Floor == y.Floor;
  }

  /** With exact rounding and a logo of positive size, the logo always fits
      the box: a narrow logo keeps the box's height, a wide one is shrunk to
      the box's width and a height no taller than the box. */
  lemma LogoFitsTheBox(c: InvolvedCompany, res: Resources)
    requires ExactRounding(res)
    requires res.maxLogoWidth > 0 && res.maxLogoHeight >= 0
    requires c.company.logo.Some? ==>
               (c.company.logo.value.width.Some? ==> c.company.logo.value.width.value >= 0) &&
               (c.company.logo.value.height.Some? ==> c.company.logo.value.height.value > 0)
    ensures var size := LogoImageSize(c, res);
            0 <= size.0 <= res.maxLogoWidth && 0 <= size.1 <= res.maxLogoHeight
  {
    var logo := c.company.logo;
    if logo.Some? && logo.value.width.Some? && logo.value.height.Some? {
      var w, h := logo.value.width.value, logo.value.height.value;
      var adjusted := res.adjustedWidth(w, h, res.maxLogoHeight);
      assert adjusted == RoundToInt(w as real / h as real * res.maxLogoHeight as real);
      assert w as real / h as real >= 0.0;
      assert adjusted >= 0;
      if adjusted > res.maxLogoWidth {
        assert res.shrunkHeight(res.maxLogoWidth, adjusted, res.maxLogoHeight)
            == RoundToInt(res.maxLogoWidth as real / adjusted as real * res.maxLogoHeight as real);
        ShrinkStaysInside(res.maxLogoWidth, adjusted, res.maxLogoHeight);
      }
    }
  }

  /** `createCompanyModel`. */
  function CreateCompanyModel(c: InvolvedCompany, res: Resources): (m: CompanyModel)
    ensures m.logoViewSize == (m.logoImageSize.0, res.maxLogoHeight)
    ensures m.logoImageSize == LogoImageSize(c, res)
    ensures m.logoUrl.Some? <==> HasLogo(c)
    ensures m.name == c.company.name && m.websiteUrl == c.company.websiteUrl
    ensures m.roles == RolesString(c, res.roleName)
  {
    var size := LogoImageSize(c, res);
    CompanyModel(
      (size.0, res.maxLogoHeight),
      size,
      if c.company.logo.Some? then Some(res.logoUrl(c.company.logo.value)) else None,
      c.company.websiteUrl,
      c.company.name,
      RolesString(c, res.roleName))
  }

  /** `createCompanyModels` of the feature-info factory. */
  function CreateCompanyModels(companies: seq<InvolvedCompany>, res: Resources): (r: seq<CompanyModel>)
    ensures |r| == |companies|
    ensures forall i :: 0 <= i < |r| ==> r[i] == CreateCompanyModel(Ordered(companies)[i], res)
  {
    if |companies| == 0 then []
    else Map(Ordered(companies), (c: InvolvedCompany) => CreateCompanyModel(c, res))
  }

  /** The app module's copy declares a nullable model and keeps the
      non-null ones. */
  function CreateNullableCompanyModel(c: InvolvedCompany, res: Resources): (m: Option<CompanyModel>)
    ensures m.Some?
  {
    Some(CreateCompanyModel(c, res))
  }

  /** Kotlin's `mapNotNull`: the non-null results, in order. */
  function MapNotNull<A, B(!new)>(s: seq<A>, f: A -> Option<B>): (r: seq<B>)
    ensures |r| <= |s|
    ensures forall b :: b in r <==> exists i :: 0 <= i < |s| && f(s[i]) == Some(b)
  {
    if |s| == 0 then []
    else
      var rest := MapNotNull(s[1..], f);
      assert forall i :: 0 < i < |s| ==> s[1..][i - 1] == s[i];
      assert forall b :: (exists i :: 0 <= i < |s| - 1 && f(s[1..][i]) == Some(b))
                     ==> exists i :: 0 <= i < |s| && f(s[i]) == Some(b);
      match f(s[0])
      case Some(b) => [b] + rest
      case None => rest
  }

  /** When no result is null, `mapNotNull` keeps one result per element, in
      order. */
  lemma {:induction false} MapNotNullOfNonNull<A, B(!new)>(s: seq<A>, f: A -> Option<B>)
    requires forall i :: 0 <= i < |s| ==> f(s[i]).Some?
    ensures |MapNotNull(s, f)| == |s|
    ensures forall i :: 0 <= i < |s| ==> f(s[i]) == Some(MapNotNull(s, f)[i])
  {
    if |s| > 0 {
      assert forall i :: 0 < i < |s| ==> s[1..][i - 1] == s[i];
      MapNotNullOfNonNull(s[1..], f);
    }
  }

  /** `createCompanyModels` of the app module's copy. */
  function AppCreateCompanyModels(companies: seq<InvolvedCompany>, res: Resources): (r: seq<CompanyModel>)
    ensures |r| <= |companies|
  {
    if |companies| == 0 then []
    else MapNotNull(Ordered(companies), (c: InvolvedCompany) => CreateNullableCompanyModel(c, res))
  }

  lemma {:induction false} MapNotNullOfSome(s: seq<InvolvedCompany>, res: Resources)
    ensures MapNotNull(s, (c: InvolvedCompany) => CreateNullableCompanyModel(c, res))
         == Map(s, (c: InvolvedCompany) => CreateCompanyModel(c, res))
  {
    if |s| > 0 {
      MapNotNullOfSome(s[1..], res);
    }
  }

  /** The model never comes back null, so the two copies agree. */
  lemma CopiesAgree(companies: seq<InvolvedCompany>, res: Resources)
    ensures AppCreateCompanyModels(companies, res) == CreateCompanyModels(companies, res)
  {
    if |companies| > 0 {
      MapNotNullOfSome(Ordered(companies), res);
    }
  }
}
