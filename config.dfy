/** The configuration tables of the dashboard that its risk logic reads
    (config.py), as immutable constants. Paths are relative to the
    application directory. */
module Config {

  /** The three level keys. */
  const High: string := "High"
  const Medium: string := "Medium"
  const Low: string := "Low"

  /** Fallback image candidates, tried in this order (config.py:7-11). */
  const DefaultImageCandidates: seq<string> :=
    ["assets/case1.png", "assets/logo/289.jpg", "assets/logo/batch_test_sample.png"]

  /** The channels with their own image paths, in the dictionary's insertion
      order (config.py:13-18). */
  const DefaultCctvImagePaths: seq<(string, string)> :=
    [("CCTV1", "assets/case1.png"), ("CCTV2", "assets/case2.png"),
     ("CCTV3", "assets/case3.png"), ("CCTV4", "assets/case4.png")]

  /** The channel whose computed result the page replaces by a fixed literal.
      This one is not a config.py table: it is the literal the results loop
      compares against (app_kor.py:409). */
  const OverriddenChannel: string := "CCTV2"

  /** The override literal (config.py:137-138, 263-267). */
  const Cctv2OverrideLevel: string := "Medium"
  const Cctv2OverrideScore: int := 68
  const Cctv2OverrideDescriptionKo: string :=
    "일부 위험 징후가 관찰됩니다. 즉시 작업 중지 수준은 아니지만, "
    + "인원과 장비 간 충분한 거리 확보가 필요합니다. "
    + "근접 작업 상황과 PPE 준수 여부를 빠르게 확인해야 합니다."

  /** Korean display labels keyed by level (config.py:241-245). */
  const LevelLabelsKo: map<string, string> :=
    map["High" := "높음", "Medium" := "보통", "Low" := "낮음"]

  /** Korean descriptions keyed by level (config.py:247-261). */
  const RiskLevelDescriptionsKo: map<string, string> :=
    map[
      "High" :=
        "지게차가 창고 통로에서 운행 중이며 보행자가 근접 작업 중입니다. "
        + "보행자 동선과 장비 동선이 충분히 분리되지 않아, 지게차 사각지대와 급작스러운 이동으로 인한 충돌 위험이 높습니다.",
      "Medium" :=
        "일부 위험 징후가 관찰됩니다. 즉시 작업 중지 수준은 아니지만, "
        + "인원과 장비 간 충분한 거리 확보가 필요합니다. "
        + "근접 작업 상황과 PPE 준수 여부를 빠르게 확인해야 합니다.",
      "Low" :=
        "뚜렷한 고위험 징후는 제한적입니다. 현재 상태를 유지하되, "
        + "기본 안전 수칙 준수 여부를 지속적으로 모니터링해야 합니다."
    ]

  /** The Korean report that every result carries (config.py:212-239). Only
      its heading line is reproduced: the body is display text that nothing
      in the model inspects. */
  const DefaultReportTemplateKo: string := "## 🚨 CCTV1 안전 위험 평가 보고서\n"
}
