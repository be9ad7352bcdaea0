/** The mock risk classifier of app_kor.py and the per-result lookups the page
    makes: score and level from the image name's digest, the result record,
    the Korean level label, the alarm style and the fixed override literal.

    SHA-256 itself is not modelled: every member that hashes takes the hash
    as a parameter `sha256`, a function from the name to its hex digest. */
module Risk {
  import opened Config
  import opened Hex

  /** The result shown for one channel (app_kor.py:59-64). */
  datatype MockResult = MockResult(
    alarmLevel: string,
    riskScore: int,
    description: string,
    reportMarkdown: string)

  /** The CSS class and icon of an alarm box. */
  datatype AlarmStyle = AlarmStyle(cssClass: string, icon: string)

  /** The number the first 8 hex digits of a digest stand for. */
  function PrefixValue(digest: HexDigest): (v: nat)
    ensures v < 0x1_0000_0000
  {
    assert Pow16(8) == 0x1_0000_0000;
    ParseHex(digest[..8])
  }

  /** The score of a digest: its prefix value reduced modulo 51, offset by 45.
      The score is the one number in [45, 95] congruent to it. */
  function ScoreOf(digest: HexDigest): (score: int)
    ensures 45 <= score <= 95
    ensures (score - 45) % 51 == PrefixValue(digest) % 51
  {
    45 + PrefixValue(digest) % 51
  }

  /** The threshold classifier: exactly one of the three levels, by band. */
  function LevelOf(score: int): (level: string)
    ensures level == High <==> score >= 75
    ensures level == Medium <==> 60 <= score < 75
    ensures level == Low <==> score < 60
    ensures level in LevelLabelsKo && level in RiskLevelDescriptionsKo
  {
    if score >= 75 then High else if score >= 60 then Medium else Low
  }

  /** Level and score of an image name (`_risk_from_image_name`). */
  function RiskFromImageName(imageName: string, sha256: string -> HexDigest): (risk: (string, int))
    ensures 45 <= risk.1 <= 95
    ensures risk.1 == ScoreOf(sha256(imageName))
    ensures risk.0 == LevelOf(risk.1)
  {
    var score := ScoreOf(sha256(imageName));
    (LevelOf(score), score)
  }

  /** A result as the classifier produces it: the score is in range, the
      level is the score's band, the description is the level's table entry
      and the report is the default template. */
  predicate Consistent(r: MockResult) {
    && 45 <= r.riskScore <= 95
    && r.alarmLevel == LevelOf(r.riskScore)
    && r.description == RiskLevelDescriptionsKo[r.alarmLevel]
    && r.reportMarkdown == DefaultReportTemplateKo
  }

  /** The result for an image name (`_build_mock_result`): the classifier's
      level and score with the description looked up by level. */
  function BuildMockResult(imageName: string, sha256: string -> HexDigest): (r: MockResult)
    ensures Consistent(r)
    ensures (r.alarmLevel, r.riskScore) == RiskFromImageName(imageName, sha256)
  {
    var (level, score) := RiskFromImageName(imageName, sha256);
    MockResult(level, score, RiskLevelDescriptionsKo[level], DefaultReportTemplateKo)
  }

  /** Two consistent results with the same score are the same result: the
      description and report depend on the level alone. */
  lemma ConsistentIsDeterminedByScore(r1: MockResult, r2: MockResult)
    requires Consistent(r1) && Consistent(r2)
    requires r1.riskScore == r2.riskScore
    ensures r1 == r2
  {
  }

  /** Two names whose results have the same level get the same description. */
  lemma SameLevelSameDescription(name1: string, name2: string, sha256: string -> HexDigest)
    requires BuildMockResult(name1, sha256).alarmLevel == BuildMockResult(name2, sha256).alarmLevel
    ensures BuildMockResult(name1, sha256).description == BuildMockResult(name2, sha256).description
  {
  }

  /** A higher score never gets a lower level. */
  function LevelRank(level: string): nat {
    if level == High then 2 else if level == Medium then 1 else 0
  }

  lemma LevelIsMonotone(score1: int, score2: int)
    requires score1 <= score2
    ensures LevelRank(LevelOf(score1)) <= LevelRank(LevelOf(score2))
  {
  }

  /** A digest whose first eight hex digits spell `prefix` and whose rest is zeros. */
  function DigestWithPrefix(prefix: nat): (d: HexDigest)
    requires prefix < 0x1_0000_0000
    ensures PrefixValue(d) == prefix
  {
    assert Pow16(8) == 0x1_0000_0000;
    var head := ToHex(prefix, 8);
    var d := head + seq(56, _ => '0');
    assert d[..8] == head;
    ParseToHex(prefix, 8);
    d
  }

  /** The score range is tight: every score in [45, 95] comes from some digest. */
  lemma EveryScoreIsReachable(score: int)
    requires 45 <= score <= 95
    ensures exists d: HexDigest :: ScoreOf(d) == score
  {
    var d := DigestWithPrefix(score - 45);
    var v := PrefixValue(d);
    assert v % 51 == score - 45;
    assert ScoreOf(d) == 45 + v % 51;
  }

  /** Banding a digest's score is not constant: each of the three levels comes
      from some digest. (Whether distinct image names reach distinct levels
      depends on the hash, which is a parameter here.) */
  lemma EveryLevelIsReachable()
    ensures exists d: HexDigest :: LevelOf(ScoreOf(d)) == High
    ensures exists d: HexDigest :: LevelOf(ScoreOf(d)) == Medium
    ensures exists d: HexDigest :: LevelOf(ScoreOf(d)) == Low
  {
    EveryScoreIsReachable(75);
    var high: HexDigest :| ScoreOf(high) == 75;
    assert LevelOf(ScoreOf(high)) == High;
    EveryScoreIsReachable(60);
    var medium: HexDigest :| ScoreOf(medium) == 60;
    assert LevelOf(ScoreOf(medium)) == Medium;
    EveryScoreIsReachable(45);
    var low: HexDigest :| ScoreOf(low) == 45;
    assert LevelOf(ScoreOf(low)) == Low;
  }

  /** The Korean label of a level (`_to_korean_level`): the table's label for
      the three known levels, the input itself for any other string. */
  function ToKoreanLevel(level: string): (labelKo: string)
    ensures level == High ==> labelKo == "높음"
    ensures level == Medium ==> labelKo == "보통"
    ensures level == Low ==> labelKo == "낮음"
    ensures level != High && level != Medium && level != Low ==> labelKo == level
  {
    if level in LevelLabelsKo then LevelLabelsKo[level] else level
  }

  /** The three known levels get three different labels. */
  lemma KoreanLabelsAreDistinct(level1: string, level2: string)
    requires level1 in LevelLabelsKo && level2 in LevelLabelsKo
    requires ToKoreanLevel(level1) == ToKoreanLevel(level2)
    ensures level1 == level2
  {
  }

  /* The icons are the characters the source file holds (app_kor.py:340, 343,
     346). They are the UTF-8 bytes of the intended emoji read back as Mac
     Roman text: U+1F6A8 for High, U+26A0 U+FE0F for Medium and U+2705 for Low. */
  const HighStyle: AlarmStyle := AlarmStyle("alarm-box alarm-high", "\U{F8FF}\U{FC}\U{F6}\U{AE}")
  const MediumStyle: AlarmStyle :=
    AlarmStyle("alarm-box alarm-medium", "\U{201A}\U{F6}\U{2020}\U{D4}\U{220F}\U{E8}")
  const LowStyle: AlarmStyle := AlarmStyle("alarm-box alarm-low", "\U{201A}\U{FA}\U{D6}")

  /** The alarm box style of a level (the branch at the head of `_render_alarm`):
      High and Medium have their own styles, every other string the low one. */
  function AlarmStyleFor(level: string): (style: AlarmStyle)
    ensures style == HighStyle <==> level == High
    ensures style == MediumStyle <==> level == Medium
    ensures style == LowStyle <==> level != High && level != Medium
  {
    if level == High then HighStyle else if level == Medium then MediumStyle else LowStyle
  }

  /** For a classified score the style follows the score bands. */
  lemma AlarmStyleFollowsScore(score: int)
    ensures AlarmStyleFor(LevelOf(score)) == HighStyle <==> score >= 75
    ensures AlarmStyleFor(LevelOf(score)) == MediumStyle <==> 60 <= score < 75
    ensures AlarmStyleFor(LevelOf(score)) == LowStyle <==> score < 60
  {
  }

  /** The literal that replaces the CCTV2 result. It is a result the classifier
      could have produced: 68 lies in the Medium band (60 to 74), and its
      description is the Medium entry of the description table. */
  function OverrideResult(): (r: MockResult)
    ensures r.alarmLevel == Cctv2OverrideLevel && r.riskScore == Cctv2OverrideScore
    ensures r.description == Cctv2OverrideDescriptionKo
    ensures 60 <= r.riskScore <= 74
    ensures Consistent(r)
  {
    MockResult(Cctv2OverrideLevel, Cctv2OverrideScore, Cctv2OverrideDescriptionKo, DefaultReportTemplateKo)
  }
}
