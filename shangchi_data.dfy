/**
 * The record types of the Shang-Chi bus-fight dataset and the dataset itself,
 * as constant sequences (src/data/shangchiData.ts).
 *
 * Free-text fields that nothing in the dashboard computes with (event
 * descriptions and caption texts, the prediction narratives) are left out of
 * the records; every field the dashboard filters, looks up, splits or pads is
 * kept with its literal value.
 */
module ShangChiData {

  /** The four-valued threat/severity/risk scale, `'low' | 'medium' | 'high' | 'critical'`. */
  datatype Level = Low | Medium | High | Critical

  /** `weaponType` of an actor. */
  datatype WeaponType = Blunt | Edged | NoWeapon | Environmental

  /** `type` of a caption. */
  datatype CaptionKind = Violence | Weapon | Movement | Prediction | Status

  /** Axis-aligned box, in percent of the frame. */
  datatype BoundingBox = BoundingBox(x: nat, y: nat, w: nat, h: nat)

  datatype Actor = Actor(
    id: string,
    name: string,
    role: string,
    labelText: string,
    weapon: string,
    weaponType: WeaponType,
    behavior: string,
    threatLevel: Level,
    confidence: real,
    boundingBox: BoundingBox,
    skeletalStatus: string,
    isActive: bool)

  /** A violence event; `description` and `captionText` are not part of this model. */
  datatype ViolenceEvent = ViolenceEvent(
    id: int,
    timestamp: string,
    frameRange: string,
    kind: string,
    severity: Level,
    involvedActors: seq<string>,
    weaponsUsed: seq<string>)

  /** An LSTM prediction; only the fields that are not narrative text. */
  datatype PredictionRecord = PredictionRecord(
    timestamp: string,
    actor: string,
    confidence: real,
    riskLevel: Level)

  /** A caption of the feed; its `text` is not part of this model. */
  datatype Caption = Caption(timestamp: string, frameNum: nat, kind: CaptionKind)

  /** One row of the weapon inventory. */
  datatype WeaponSummary = WeaponSummary(
    weapon: string,
    count: int,
    holders: seq<string>,
    kind: string,
    dangerLevel: string,
    status: string)

  const actors: seq<Actor> := [
    Actor("ACTOR-01", "Shang-Chi", "Protagonist (Defender / Victim)", "Primary Target — Defender",
          "Bus Pole (improvised)", Environmental, "Defensive Parrying / Counter-Striking / Martial Arts",
          High, 0.98, BoundingBox(35, 20, 10, 24), "Active — High-velocity martial arts", true),
    Actor("ACTOR-02", "Razor Fist", "Primary Aggressor / Lead Assassin", "Lead Aggressor — Lethal Weapon",
          "Machete-Arm (Permanent Edged)", Edged, "Aggressive Slashing / Pursuing / Lethal Intent",
          Critical, 0.97, BoundingBox(55, 18, 11, 26), "Active — Maximum aggression, lethal arm deployed", true),
    Actor("ACTOR-03", "Assassin Alpha", "Ten Rings — Secondary Aggressor", "Flanking Attacker — Armed",
          "Karambit Knife", Edged, "Flanking / Slashing / Coordinated Attack",
          Critical, 0.93, BoundingBox(42, 22, 8, 22), "Active — Coordinated with ACTOR-02", true),
    Actor("ACTOR-04", "Assassin Bravo", "Ten Rings — Secondary Aggressor", "Rear Attacker — Armed",
          "Tactical Knife", Edged, "Rear-flanking / Stabbing Attempts",
          Critical, 0.91, BoundingBox(28, 25, 8, 21), "Active — Attacking from behind", true),
    Actor("ACTOR-05", "Assassin Charlie", "Ten Rings — Secondary Aggressor", "Support Attacker — Grappler",
          "Concealed Blade", Edged, "Grappling / Restraining Target",
          High, 0.89, BoundingBox(48, 28, 7, 20), "Active — Attempting restraint", true),
    Actor("ACTOR-06", "Assassin Delta", "Ten Rings — Secondary Aggressor", "Striker — Close Quarters",
          "None (Martial Arts)", NoWeapon, "Striking / Kicking / Close-quarters combat",
          High, 0.87, BoundingBox(60, 30, 7, 20), "Active — CQC engagement", true),
    Actor("ACTOR-07", "Assassin Echo", "Ten Rings — Secondary Aggressor", "Overwatch / Backup",
          "Karambit Knife", Edged, "Waiting / Ready to engage / Blocking exits",
          High, 0.85, BoundingBox(70, 24, 7, 20), "Idle — Ready state, blocking rear exit", false),
    Actor("ACTOR-08", "Passenger — Male (Elderly)", "Bystander / Civilian", "Bystander — Cowering",
          "None", NoWeapon, "Cowering / Ducking behind seats",
          Low, 0.82, BoundingBox(15, 35, 6, 14), "Stationary — Defensive crouch", false),
    Actor("ACTOR-09", "Passenger — Female", "Bystander / Civilian", "Bystander — Fleeing",
          "None", NoWeapon, "Fleeing toward rear exit / Screaming",
          Low, 0.80, BoundingBox(78, 32, 6, 16), "Moving — Rapid retreat vector", false),
    Actor("ACTOR-10", "Passenger — Male (Young)", "Bystander / Civilian", "Bystander — Frozen",
          "None", NoWeapon, "Frozen in seat / Shock response",
          Low, 0.78, BoundingBox(22, 38, 5, 13), "Stationary — Shock freeze response", false),
    Actor("ACTOR-11", "Passenger — Female (Student)", "Bystander / Civilian", "Bystander — Ducking",
          "None", NoWeapon, "Ducking under window / Self-protection",
          Low, 0.76, BoundingBox(82, 40, 5, 12), "Stationary — Floor level", false),
    Actor("ACTOR-12", "Bus Driver", "Bystander / Civilian (Incapacitated)", "Bystander — Incapacitated",
          "None", NoWeapon, "Incapacitated / Slumped over wheel",
          Low, 0.84, BoundingBox(5, 28, 7, 15), "Stationary — Incapacitated", false)
  ]

  const violenceEvents: seq<ViolenceEvent> := [
    ViolenceEvent(1, "00:00 — 00:12", "F0001 — F0360", "Social Tension / Proximity Alert", Medium,
      ["ACTOR-01", "ACTOR-02", "ACTOR-03", "ACTOR-04", "ACTOR-05", "ACTOR-06", "ACTOR-07"],
      ["Concealed Blades"]),
    ViolenceEvent(2, "00:12 — 00:30", "F0360 — F0900", "First Strike — Assassination Attempt", High,
      ["ACTOR-01", "ACTOR-03", "ACTOR-04"],
      ["Karambit Knife", "Tactical Knife"]),
    ViolenceEvent(3, "00:30 — 01:00", "F0900 — F1800", "Martial Arts Escalation — Multi-Attacker Engagement", Critical,
      ["ACTOR-01", "ACTOR-03", "ACTOR-04", "ACTOR-05", "ACTOR-06"],
      ["Karambit Knife", "Tactical Knife", "Concealed Blade", "Bus Pole (improvised)"]),
    ViolenceEvent(4, "01:00 — 01:45", "F1800 — F3150", "Razor Fist Deployment — Machete-Arm Engaged", Critical,
      ["ACTOR-01", "ACTOR-02", "ACTOR-05", "ACTOR-06"],
      ["Machete-Arm (Permanent Edged)", "Concealed Blade", "Bus Pole"]),
    ViolenceEvent(5, "01:45 — 02:30", "F3150 — F4500", "High-Speed Combat — Structural Damage", Critical,
      ["ACTOR-01", "ACTOR-02", "ACTOR-03", "ACTOR-06"],
      ["Machete-Arm", "Karambit Knife", "Bus Interior Elements"]),
    ViolenceEvent(6, "02:30 — 03:15", "F4500 — F5850", "Environmental Combat — Bus as Weapon", Critical,
      ["ACTOR-01", "ACTOR-02", "ACTOR-07", "ACTOR-12"],
      ["Machete-Arm", "Bus Poles", "Environmental Objects"]),
    ViolenceEvent(7, "03:15 — 04:00", "F5850 — F7200", "Structural Failure — Bus Splits", Critical,
      ["ACTOR-01", "ACTOR-02", "ACTOR-03", "ACTOR-07", "ACTOR-08", "ACTOR-09", "ACTOR-10", "ACTOR-11", "ACTOR-12"],
      ["Machete-Arm"]),
    ViolenceEvent(8, "04:00 — 04:30", "F7200 — F8100", "Mob Neutralization — Dispersal & Crash", High,
      ["ACTOR-01", "ACTOR-02", "ACTOR-08", "ACTOR-09", "ACTOR-10", "ACTOR-11"],
      ["None — Environmental Resolution"])
  ]

  const predictions: seq<PredictionRecord> := [
    PredictionRecord("00:08", "ACTOR-03 (Assassin Alpha)", 0.94, Critical),
    PredictionRecord("00:18", "ACTOR-01 (Shang-Chi)", 0.91, High),
    PredictionRecord("00:40", "ACTOR-02 (Razor Fist)", 0.96, Critical),
    PredictionRecord("01:15", "ACTOR-01 (Shang-Chi)", 0.88, High),
    PredictionRecord("01:50", "ACTOR-02 (Razor Fist)", 0.93, Critical),
    PredictionRecord("02:20", "ACTOR-01 (Shang-Chi)", 0.86, High),
    PredictionRecord("02:50", "ACTOR-02 (Razor Fist)", 0.92, Critical),
    PredictionRecord("03:30", "BUS STRUCTURE", 0.95, Critical),
    PredictionRecord("03:50", "Remaining Assassins", 0.89, High)
  ]

  const captions: seq<Caption> := [
    Caption("00:00", 1, Status),
    Caption("00:02", 60, Status),
    Caption("00:04", 120, Movement),
    Caption("00:06", 180, Weapon),
    Caption("00:08", 240, Prediction),
    Caption("00:10", 300, Violence),
    Caption("00:12", 360, Violence),
    Caption("00:16", 480, Weapon),
    Caption("00:20", 600, Violence),
    Caption("00:28", 840, Movement),
    Caption("00:35", 1050, Violence),
    Caption("00:45", 1350, Weapon),
    Caption("00:55", 1650, Prediction),
    Caption("01:00", 1800, Violence),
    Caption("01:10", 2100, Weapon),
    Caption("01:20", 2400, Violence),
    Caption("01:35", 2850, Prediction),
    Caption("01:45", 3150, Violence),
    Caption("02:00", 3600, Movement),
    Caption("02:15", 3870, Violence),
    Caption("02:30", 4500, Prediction),
    Caption("02:45", 4950, Violence),
    Caption("03:00", 5400, Weapon),
    Caption("03:10", 5580, Prediction),
    Caption("03:20", 5940, Violence),
    Caption("03:35", 6300, Movement),
    Caption("03:50", 6900, Prediction),
    Caption("04:00", 7200, Violence),
    Caption("04:10", 7500, Movement),
    Caption("04:20", 7800, Status)
  ]

  const weaponSummary: seq<WeaponSummary> := [
    WeaponSummary("Machete-Arm (Prosthetic)", 1, ["ACTOR-02"], "Edged (Permanent)", "Critical",
                  "ACTIVE — Lethal. Causes structural damage."),
    WeaponSummary("Karambit Knives", 2, ["ACTOR-03", "ACTOR-07"], "Edged (Concealed)", "Critical",
                  "ACTIVE — Close-quarters assassination tool"),
    WeaponSummary("Tactical Knife", 1, ["ACTOR-04"], "Edged (Concealed)", "High",
                  "ACTIVE — Stabbing attempts detected"),
    WeaponSummary("Concealed Blade", 1, ["ACTOR-05"], "Edged (Concealed)", "High",
                  "ACTIVE — Used during grappling"),
    WeaponSummary("Bus Pole (Improvised)", 1, ["ACTOR-01"], "Blunt (Environmental)", "Medium",
                  "ACTIVE — Improvised defensive weapon"),
    WeaponSummary("Bare Hands / Martial Arts", 2, ["ACTOR-01", "ACTOR-06"], "Unarmed Combat", "Medium",
                  "ACTIVE — Trained martial arts")
  ]
}
