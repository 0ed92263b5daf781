/**
 * The digital fingerprint card (src/components/EnhancedDigitalFingerprintCard.tsx): the
 * defaults of its optional props, the banding of the neon score, the badge row with its
 * overflow chip, the share request, and the plan and tier lookup tables.
 */
module FingerprintCard {
  import opened Options
  import opened Strings

  datatype Plan = Free | Pro | Enterprise

  datatype Tier = Bronze | Silver | Gold | Platinum | Diamond

  /** The props as passed: the optional ones are `None` when the caller leaves them out. */
  datatype CardProps = CardProps(
    userName: string,
    fingerprintNumber: string,
    planLevel: Plan,
    dateCreated: string,
    badges: seq<string>,
    verificationCode: Option<string>,
    totalSites: Option<int>,
    totalVisitors: Option<int>,
    membershipTier: Option<Tier>,
    neonScore: Option<int>,
    isActive: Option<bool>)

  /** The props after destructuring with defaults: every field has a value. */
  datatype Card = Card(
    userName: string,
    fingerprintNumber: string,
    planLevel: Plan,
    dateCreated: string,
    badges: seq<string>,
    verificationCode: string,
    totalSites: int,
    totalVisitors: int,
    membershipTier: Tier,
    neonScore: int,
    isActive: bool)

  const DefaultVerificationCode := "NTC-8849-VX"

  /**
   * Default parameter values apply to omitted props only; a prop passed as `""`, `0` or
   * `false` keeps that value.
   */
  function WithDefaults(p: CardProps): (c: Card)
    ensures c.verificationCode == (if p.verificationCode.Some? then p.verificationCode.value else DefaultVerificationCode)
    ensures c.totalSites == (if p.totalSites.Some? then p.totalSites.value else 0)
    ensures c.totalVisitors == (if p.totalVisitors.Some? then p.totalVisitors.value else 0)
    ensures c.membershipTier == (if p.membershipTier.Some? then p.membershipTier.value else Bronze)
    ensures c.neonScore == (if p.neonScore.Some? then p.neonScore.value else 750)
    ensures c.isActive == (if p.isActive.Some? then p.isActive.value else true)
    ensures c.userName == p.userName && c.fingerprintNumber == p.fingerprintNumber
    ensures c.planLevel == p.planLevel && c.dateCreated == p.dateCreated && c.badges == p.badges
  {
    Card(p.userName, p.fingerprintNumber, p.planLevel, p.dateCreated, p.badges,
      p.verificationCode.GetOr(DefaultVerificationCode),
      p.totalSites.GetOr(0),
      p.totalVisitors.GetOr(0),
      p.membershipTier.GetOr(Bronze),
      p.neonScore.GetOr(750),
      p.isActive.GetOr(true))
  }

  /** Props that already carry every optional field come through unchanged. */
  lemma {:induction false} DefaultsKeepGivenProps(p: CardProps)
    requires p.verificationCode.Some? && p.totalSites.Some? && p.totalVisitors.Some?
    requires p.membershipTier.Some? && p.neonScore.Some? && p.isActive.Some?
    ensures var c := WithDefaults(p);
      CardProps(c.userName, c.fingerprintNumber, c.planLevel, c.dateCreated, c.badges,
        Some(c.verificationCode), Some(c.totalSites), Some(c.totalVisitors),
        Some(c.membershipTier), Some(c.neonScore), Some(c.isActive)) == p
  {
    var c := WithDefaults(p);
    assert Some(c.verificationCode) == p.verificationCode;
    assert Some(c.totalSites) == p.totalSites && Some(c.totalVisitors) == p.totalVisitors;
    assert Some(c.membershipTier) == p.membershipTier;
    assert Some(c.neonScore) == p.neonScore && Some(c.isActive) == p.isActive;
  }

  // ---------------------------------------------------------------------------
  // Neon score

  /** The four colour bands of the neon score, from best to worst. */
  datatype Band = Green | NeonBlue | Yellow | Red

  /** The threshold chain: 900 and above, 750 and above, 600 and above, below 600. */
  function ScoreBand(score: int): (b: Band)
    ensures b == Green <==> score >= 900
    ensures b == NeonBlue <==> 750 <= score < 900
    ensures b == Yellow <==> 600 <= score < 750
    ensures b == Red <==> score < 600
  {
    if score >= 900 then Green
    else if score >= 750 then NeonBlue
    else if score >= 600 then Yellow
    else Red
  }

  /** A band's place in the order, worst first. */
  function Rank(b: Band): nat
  {
    match b
    case Red => 0
    case Yellow => 1
    case NeonBlue => 2
    case Green => 3
  }

  /** A higher score never lands in a worse band. */
  lemma BandMonotone(s: int, t: int)
    requires s <= t
    ensures Rank(ScoreBand(s)) <= Rank(ScoreBand(t))
  {
  }

  /** The CSS class of each band. */
  function BandClass(b: Band): string
  {
    match b
    case Green => "text-green-400"
    case NeonBlue => "text-neon-blue"
    case Yellow => "text-yellow-400"
    case Red => "text-red-400"
  }

  /** `getNeonScoreColor`. */
  function NeonScoreColor(score: int): (c: string)
    ensures score >= 900 ==> c == "text-green-400"
    ensures 750 <= score < 900 ==> c == "text-neon-blue"
    ensures 600 <= score < 750 ==> c == "text-yellow-400"
    ensures score < 600 ==> c == "text-red-400"
  {
    BandClass(ScoreBand(score))
  }

  // ---------------------------------------------------------------------------
  // Badges

  function Min(a: int, b: int): int
  {
    if a <= b then a else b
  }

  /** The badge section is rendered only when there is at least one badge to display. */
  function ShowsBadgeSection(badges: seq<string>): (b: bool)
    ensures b <==> DisplayedBadges(badges) != []
  {
    |badges| > 0
  }

  /** `badges.slice(0, 3)`: the first three badges, or all of them when there are fewer. */
  function DisplayedBadges(badges: seq<string>): (r: seq<string>)
    ensures |r| == Min(3, |badges|)
    ensures r == badges[..|r|]
    ensures |badges| <= 3 ==> r == badges
  {
    if |badges| <= 3 then badges else badges[..3]
  }

  /** The number the overflow chip shows, present only when more than three badges exist. */
  function Overflow(badges: seq<string>): (r: Option<nat>)
    ensures r.Some? <==> |badges| > 3
    ensures r.Some? ==> r.value == |badges| - 3
  {
    if |badges| > 3 then Some(|badges| - 3) else None
  }

  /** Every badge is either displayed or counted by the overflow chip, never both. */
  lemma {:induction false} BadgesAccounted(badges: seq<string>)
    ensures |DisplayedBadges(badges)| + Overflow(badges).GetOr(0) == |badges|
    ensures Overflow(badges).Some? ==> |DisplayedBadges(badges)| == 3
    ensures DisplayedBadges(badges) + badges[|DisplayedBadges(badges)|..] == badges
  {
    var r := DisplayedBadges(badges);
    assert badges[..|r|] + badges[|r|..] == badges;
  }

  /** The text of the overflow chip. */
  function OverflowLabel(badges: seq<string>): (r: Option<string>)
    ensures r.Some? <==> |badges| > 3
    ensures r.Some? ==> r.value == "+" + NatToString(|badges| - 3)
  {
    match Overflow(badges)
    case Some(n) => Some("+" + NatToString(n))
    case None => None
  }

  // ---------------------------------------------------------------------------
  // Sharing

  const FingerprintUrlPrefix := "https://neontech.com/fingerprint/"

  datatype ShareData = ShareData(title: string, text: string, url: string)

  /** The share payload built from the user name and the fingerprint number. */
  function ShareDataFor(userName: string, fingerprintNumber: string): (d: ShareData)
    ensures d.url == FingerprintUrlPrefix + fingerprintNumber
    ensures d.title == userName + " - Neon Tech Digital Fingerprint"
    ensures d.text == "Check out my digital fingerprint: " + fingerprintNumber
  {
    ShareData(userName + " - Neon Tech Digital Fingerprint",
      "Check out my digital fingerprint: " + fingerprintNumber,
      FingerprintUrlPrefix + fingerprintNumber)
  }

  /** The share URL names the fingerprint: two numbers share a URL only when they are equal. */
  lemma ShareUrlInjective(userName: string, m: string, n: string)
    ensures ShareDataFor(userName, m).url == ShareDataFor(userName, n).url <==> m == n
  {
    PrefixCancel(FingerprintUrlPrefix, m, n);
  }

  /** The fingerprint number is recovered from the share URL by dropping the fixed prefix. */
  lemma ShareUrlRoundTrip(userName: string, n: string)
    ensures var url := ShareDataFor(userName, n).url;
      |url| >= |FingerprintUrlPrefix| && url[..|FingerprintUrlPrefix|] == FingerprintUrlPrefix
      && url[|FingerprintUrlPrefix|..] == n
  {
    var url := ShareDataFor(userName, n).url;
    assert url == FingerprintUrlPrefix + n;
  }

  /** What the share button does: the native share sheet when there is one, otherwise copy the URL. */
  datatype ShareAction = NativeShare(data: ShareData) | CopyToClipboard(text: string)

  function ShareCard(canShare: bool, userName: string, fingerprintNumber: string): (a: ShareAction)
    ensures canShare <==> a.NativeShare?
    ensures a.NativeShare? ==> a.data == ShareDataFor(userName, fingerprintNumber)
    ensures a.CopyToClipboard? ==> a.text == FingerprintUrlPrefix + fingerprintNumber
  {
    var d := ShareDataFor(userName, fingerprintNumber);
    if canShare then NativeShare(d) else CopyToClipboard(d.url)
  }

  // ---------------------------------------------------------------------------
  // Lookup tables

  const FreeGradient := "from-canvas-elevated to-canvas-surface"
  const ProGradient := "from-neon-blue/20 to-luxury-purple/20"
  const EnterpriseGradient := "from-luxury-purple/30 to-luxury-lavender/20"

  function PlanColors(p: Plan): (c: string)
    ensures p == Free ==> c == FreeGradient
    ensures p == Pro ==> c == ProGradient
    ensures p == Enterprise ==> c == EnterpriseGradient
  {
    match p
    case Free => FreeGradient
    case Pro => ProGradient
    case Enterprise => EnterpriseGradient
  }

  const FreeShadow := "shadow-lg"
  const ProShadow := "shadow-neon-blue/20 shadow-2xl"
  const EnterpriseShadow := "shadow-luxury-purple/30 shadow-2xl"

  function PlanGlow(p: Plan): (c: string)
    ensures p == Free ==> c == FreeShadow
    ensures p == Pro ==> c == ProShadow
    ensures p == Enterprise ==> c == EnterpriseShadow
  {
    match p
    case Free => FreeShadow
    case Pro => ProShadow
    case Enterprise => EnterpriseShadow
  }

  const BronzeGradient := "from-amber-600/20 to-amber-800/20"
  const SilverGradient := "from-gray-400/20 to-gray-600/20"
  const GoldGradient := "from-yellow-400/20 to-yellow-600/20"
  const PlatinumGradient := "from-purple-400/20 to-purple-600/20"
  const DiamondGradient := "from-blue-400/20 to-cyan-400/20"

  function TierColors(t: Tier): (c: string)
    ensures t == Bronze ==> c == BronzeGradient
    ensures t == Silver ==> c == SilverGradient
    ensures t == Gold ==> c == GoldGradient
    ensures t == Platinum ==> c == PlatinumGradient
    ensures t == Diamond ==> c == DiamondGradient
  {
    match t
    case Bronze => BronzeGradient
    case Silver => SilverGradient
    case Gold => GoldGradient
    case Platinum => PlatinumGradient
    case Diamond => DiamondGradient
  }

  /** The plan badge's classes: Free and Pro have their own, every other plan the purple one. */
  function PlanBadgeClass(p: Plan): (c: string)
    ensures p == Free ==> c == "bg-canvas-elevated text-muted-foreground"
    ensures p == Pro ==> c == "bg-neon-blue/20 text-neon-blue"
    ensures p == Enterprise ==> c == "bg-luxury-purple/20 text-luxury-purple"
  {
    if p == Free then "bg-canvas-elevated text-muted-foreground"
    else if p == Pro then "bg-neon-blue/20 text-neon-blue"
    else "bg-luxury-purple/20 text-luxury-purple"
  }

  /** Each plan has its own gradient. */
  lemma PlanColorsDistinct(p: Plan, q: Plan)
    ensures PlanColors(p) == PlanColors(q) <==> p == q
  {
    DifferAt(FreeGradient, ProGradient, 5);
    DifferAt(FreeGradient, EnterpriseGradient, 5);
    DifferAt(ProGradient, EnterpriseGradient, 5);
  }

  /** Each plan has its own shadow. */
  lemma PlanGlowDistinct(p: Plan, q: Plan)
    ensures PlanGlow(p) == PlanGlow(q) <==> p == q
  {
    DifferAt(FreeShadow, ProShadow, 7);
    DifferAt(FreeShadow, EnterpriseShadow, 8);
    DifferAt(ProShadow, EnterpriseShadow, 7);
  }

  /** Each tier has its own gradient. */
  lemma TierColorsDistinct(t: Tier, u: Tier)
    ensures TierColors(t) == TierColors(u) <==> t == u
  {
    DifferAt(BronzeGradient, SilverGradient, 5);
    DifferAt(BronzeGradient, GoldGradient, 5);
    DifferAt(BronzeGradient, PlatinumGradient, 5);
    DifferAt(BronzeGradient, DiamondGradient, 5);
    DifferAt(SilverGradient, GoldGradient, 5);
    DifferAt(SilverGradient, PlatinumGradient, 5);
    DifferAt(SilverGradient, DiamondGradient, 5);
    DifferAt(GoldGradient, PlatinumGradient, 5);
    DifferAt(GoldGradient, DiamondGradient, 5);
    DifferAt(PlatinumGradient, DiamondGradient, 5);
  }

  /** The premium glow is drawn for every plan except Free. */
  function ShowsPremiumGlow(p: Plan): (b: bool)
    ensures b <==> p == Pro || p == Enterprise
  {
    p != Free
  }

  /** Only the Free plan lacks the premium glow, and only it has the plain shadow. */
  lemma PremiumGlowIffPaid(p: Plan)
    ensures ShowsPremiumGlow(p) <==> (p == Pro || p == Enterprise)
    ensures ShowsPremiumGlow(p) <==> PlanGlow(p) != "shadow-lg"
  {
    if p != Free {
      DifferAt(PlanGlow(p), "shadow-lg", 8);
    }
  }

  /** The status dot is green and pulsing while the card is active, grey otherwise. */
  function StatusDotClass(isActive: bool): (c: string)
    ensures isActive ==> c == "bg-green-400 animate-pulse"
    ensures !isActive ==> c == "bg-gray-400"
  {
    if isActive then "bg-green-400 animate-pulse" else "bg-gray-400"
  }
}
