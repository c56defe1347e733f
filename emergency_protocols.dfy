/** The static first-aid protocol table: for a protocol name and a 1-based step
    number, the spoken guidance, the on-screen instructions and an optional safety
    warning; per protocol, the number of steps and an icon name; and the fixed list
    of emergency types the home screen offers. Every lookup is total: any name or
    step the table does not list falls through to a fixed default, and the table
    does no clamping of its own. */
module EmergencyProtocols {
  import opened Options

  /** One entry of the home screen's emergency list. */
  datatype EmergencyType = EmergencyType(id: string, icon: string, title: string, subtitle: string, color: string)

  /** The four protocol names the table knows. */
  predicate IsProtocol(p: string) {
    p == "Choking" || p == "Heart Attack" || p == "Stroke" || p == "Fall"
  }

  /** Number of steps of a protocol; any unknown name has a single step. */
  function MaxSteps(protocolType: string): (r: int)
    ensures 1 <= r <= 4
    ensures r == 1 <==> !IsProtocol(protocolType)
  {
    match protocolType
    case "Choking" => 4
    case "Heart Attack" => 4
    case "Stroke" => 4
    case "Fall" => 3
    case _ => 1
  }

  /** A pair the table lists: a known protocol and a step within its range. */
  predicate InRange(protocolType: string, step: int) {
    IsProtocol(protocolType) && 1 <= step <= MaxSteps(protocolType)
  }

  // Spoken guidance, one text per protocol step.
  const ChokingGuidance1: string := "I'm SARA, and I'm here to guide you through this choking emergency with a calm voice. Take a breath, stay with me, and follow my instructions exactly. We can save this person together. First, let's position yourself behind them."
  const ChokingGuidance2: string := "You're doing great! Now I need you to position your hands correctly. This is really important for the Heimlich maneuver to work effectively. Make a fist and place it just above their belly button."
  const ChokingGuidance3: string := "Perfect positioning! Now we perform the thrusts together. Don't be afraid to use firm pressure, you're saving a life right now. Give quick, sharp upward thrusts."
  const ChokingGuidance4: string := "Keep going! You're doing wonderfully. Continue those thrusts until the object comes out or they start breathing normally. Don't give up, you've got this!"
  const HeartAttackGuidance1: string := "This is SARA with a calm voice. I've detected a possible heart attack. Time is really critical for heart muscle, but we're going to handle this together. Let's act quickly and call 911 immediately."
  const HeartAttackGuidance2: string := "Excellent work! Now, if you have aspirin available, give it to them. Just make sure they're not allergic first. This can really help prevent further blood clotting."
  const HeartAttackGuidance3: string := "You're doing wonderfully. Keeping them calm and comfortable really helps reduce the stress on their heart. Have them sit down and rest comfortably."
  const HeartAttackGuidance4: string := "Stay vigilant with me. I'm monitoring this situation with you. Watch carefully for any changes in their breathing or consciousness."
  const StrokeGuidance1: string := "I'm SARA with my caring voice. Let's do the FAST test together, step by step. First, ask them to smile and watch their face really carefully."
  const StrokeGuidance2: string := "Good work. Now ask them to raise both arms above their head. Watch closely to see if one arm drifts down."
  const StrokeGuidance3: string := "Now let's test their speech. Ask them to repeat a simple phrase and listen very carefully to how they sound."
  const StrokeGuidance4: string := "If any of those signs were present, we need to call 911 immediately. Time is brain tissue, so every minute really counts."
  const FallGuidance1: string := "I'm SARA with a gentle voice. Let's assess this fall together carefully. First, check if they're conscious and can respond to you."
  const FallGuidance2: string := "Good. Now look for any obvious injuries, but don't move them yet if you suspect anything serious."
  const FallGuidance3: string := "If you suspect any serious injury, especially to the head or spine, call 911 and keep them completely still."
  const DefaultGuidance: string := "I'm SARA, your caring AI medical assistant. I'm here to guide you through this emergency step by step with my voice. You can absolutely do this."

  /** Spoken guidance. Exactly the in-range pairs get their own text; every other
      pair, including step 0, negative steps and steps past the last, gets the default. */
  function Guidance(protocolType: string, step: int): (r: string)
    ensures r != []
    ensures r == DefaultGuidance <==> !InRange(protocolType, step)
  {
    match (protocolType, step)
    case ("Choking", 1) => ChokingGuidance1
    case ("Choking", 2) => ChokingGuidance2
    case ("Choking", 3) => ChokingGuidance3
    case ("Choking", 4) => ChokingGuidance4
    case ("Heart Attack", 1) => HeartAttackGuidance1
    case ("Heart Attack", 2) => HeartAttackGuidance2
    case ("Heart Attack", 3) => HeartAttackGuidance3
    case ("Heart Attack", 4) => HeartAttackGuidance4
    case ("Stroke", 1) => StrokeGuidance1
    case ("Stroke", 2) => StrokeGuidance2
    case ("Stroke", 3) => StrokeGuidance3
    case ("Stroke", 4) => StrokeGuidance4
    case ("Fall", 1) => FallGuidance1
    case ("Fall", 2) => FallGuidance2
    case ("Fall", 3) => FallGuidance3
    case _ => DefaultGuidance
  }

  // On-screen instructions, one line per action.
  const ChokingInstructions1: string := "Stand directly behind the choking person.\nWrap your arms around their waist from behind.\nMake sure you have stable footing."
  const ChokingInstructions2: string := "Make a fist with one hand.\nPlace the thumb side just above their belly button.\nKeep your fist below the ribcage."
  const ChokingInstructions3: string := "Grasp your fist with your other hand.\nGive quick, forceful upward thrusts.\nPull sharply inward and upward.\nUse firm pressure!"
  const ChokingInstructions4: string := "Keep giving thrusts until object comes out.\nWatch for the person to start breathing normally.\nIf they become unconscious, start CPR immediately."
  const HeartAttackInstructions1: string := "Don't wait or hesitate!\nDon't drive to hospital yourself.\nEmergency responders have life-saving equipment.\nTime is critical for heart muscle."
  const HeartAttackInstructions2: string := "Give 325mg aspirin if available.\nOnly if person is NOT allergic.\nHave them chew it, don't swallow whole.\nThis helps prevent blood clots."
  const HeartAttackInstructions3: string := "Have person sit down and rest.\nLoosen any tight clothing.\nKeep them calm and reassured.\nDon't let them walk around."
  const HeartAttackInstructions4: string := "Watch their breathing continuously.\nBe ready to start CPR if they become unconscious.\nNote any changes in their condition.\nStay with them until help arrives."
  const StrokeInstructions1: string := "Ask the person to smile.\nLook carefully at their face.\nDoes one side droop?\nIs their smile uneven or lopsided?"
  const StrokeInstructions2: string := "Ask person to raise both arms above head.\nWatch them carefully.\nDoes one arm drift down?\nCan they keep both arms up equally?"
  const StrokeInstructions3: string := "Ask them to repeat a simple phrase.\nListen carefully to their speech.\nIs it slurred, garbled, or strange?\nDo they understand what you're saying?"
  const StrokeInstructions4: string := "If ANY signs are present, call 911 NOW!\nNote the exact time symptoms started.\nThis is critical for treatment decisions.\nEvery minute counts for brain tissue!"
  const FallInstructions1: string := "Ask if they're okay and can hear you.\nCheck if they know their name and location.\nLook for signs of confusion.\nDon't move them yet!"
  const FallInstructions2: string := "Look for obvious bleeding or injuries.\nCheck for unusual positioning of limbs.\nAsk where they feel pain.\nDon't move them if you suspect serious injury."
  const FallInstructions3: string := "If serious injury suspected, call 911.\nDon't move someone with possible spinal injury.\nKeep them still and warm.\nMonitor breathing until help arrives."
  const DefaultInstructions: string := "SARA is guiding you through this emergency protocol. Follow instructions step by step."

  /** On-screen instructions. Exactly the in-range pairs get their own text; every
      other pair gets the default. */
  function Instructions(protocolType: string, step: int): (r: string)
    ensures r != []
    ensures r == DefaultInstructions <==> !InRange(protocolType, step)
  {
    match (protocolType, step)
    case ("Choking", 1) => ChokingInstructions1
    case ("Choking", 2) => ChokingInstructions2
    case ("Choking", 3) => ChokingInstructions3
    case ("Choking", 4) => ChokingInstructions4
    case ("Heart Attack", 1) => HeartAttackInstructions1
    case ("Heart Attack", 2) => HeartAttackInstructions2
    case ("Heart Attack", 3) => HeartAttackInstructions3
    case ("Heart Attack", 4) => HeartAttackInstructions4
    case ("Stroke", 1) => StrokeInstructions1
    case ("Stroke", 2) => StrokeInstructions2
    case ("Stroke", 3) => StrokeInstructions3
    case ("Stroke", 4) => StrokeInstructions4
    case ("Fall", 1) => FallInstructions1
    case ("Fall", 2) => FallInstructions2
    case ("Fall", 3) => FallInstructions3
    case _ => DefaultInstructions
  }

  // Safety warnings, for the few steps that have one.
  const ChokingWarning2: string := "Keep hands below ribcage to avoid injury"
  const ChokingWarning3: string := "Use firm pressure - don't be afraid to use force"
  const HeartAttackWarning2: string := "Only give aspirin if person is NOT allergic"
  const StrokeWarning4: string := "Time is brain - every minute of delay matters"
  const FallWarning2: string := "Never move someone with suspected spinal injury"

  /** The safety warning shown beside a step, if it has one. Only steps within
      their protocol's range carry one. */
  function SafetyWarning(protocolType: string, step: int): (r: Option<string>)
    ensures r.Some? ==> InRange(protocolType, step) && r.value != []
  {
    match (protocolType, step)
    case ("Choking", 2) => Some(ChokingWarning2)
    case ("Choking", 3) => Some(ChokingWarning3)
    case ("Heart Attack", 2) => Some(HeartAttackWarning2)
    case ("Stroke", 4) => Some(StrokeWarning4)
    case ("Fall", 2) => Some(FallWarning2)
    case _ => None
  }

  const DefaultIcon: string := "cross.case.fill"

  /** Icon name of a protocol; the default icon marks exactly the unknown names. */
  function Icon(protocolType: string): (r: string)
    ensures r == DefaultIcon <==> !IsProtocol(protocolType)
  {
    match protocolType
    case "Choking" => "lungs.fill"
    case "Heart Attack" => "heart.fill"
    case "Stroke" => "brain.head.profile"
    case "Fall" => "figure.fall"
    case _ => DefaultIcon
  }

  /** The emergency types offered on the home screen, in display order. */
  const EmergencyTypes: seq<EmergencyType> := [
    EmergencyType("Choking", "lungs.fill", "CHOKING EMERGENCY", "Can't breathe, cough, or speak", "red"),
    EmergencyType("Heart Attack", "heart.fill", "HEART ATTACK", "Chest pain, shortness of breath", "red"),
    EmergencyType("Stroke", "brain.head.profile", "STROKE", "Face drooping, speech problems", "red"),
    EmergencyType("Fall", "figure.fall", "SERIOUS FALL", "Head injury, can't get up", "orange")
  ]

  /** Within one protocol, no two steps share their spoken guidance. */
  lemma GuidanceDistinct(protocolType: string, i: int, j: int)
    requires InRange(protocolType, i) && InRange(protocolType, j) && i != j
    ensures Guidance(protocolType, i) != Guidance(protocolType, j)
  {
    match protocolType
    case "Choking" =>
    case "Heart Attack" =>
    case "Stroke" =>
    case "Fall" =>
  }

  /** Within one protocol, no two steps share their instructions. */
  lemma InstructionsDistinct(protocolType: string, i: int, j: int)
    requires InRange(protocolType, i) && InRange(protocolType, j) && i != j
    ensures Instructions(protocolType, i) != Instructions(protocolType, j)
  {
    match protocolType
    case "Choking" =>
    case "Heart Attack" =>
    case "Stroke" =>
    case "Fall" =>
  }

  /** Exactly five pairs carry a safety warning. */
  lemma WarningPairs(protocolType: string, step: int)
    ensures SafetyWarning(protocolType, step).Some? <==>
      (protocolType, step) in {("Choking", 2), ("Choking", 3), ("Heart Attack", 2), ("Stroke", 4), ("Fall", 2)}
  {
  }

  /** The emergency list names exactly the four protocols, each once, with the
      icon the icon table gives it and a red or orange colour. */
  lemma EmergencyTypesAgree()
    ensures |EmergencyTypes| == 4
    ensures forall i, j :: 0 <= i < j < |EmergencyTypes| ==> EmergencyTypes[i].id != EmergencyTypes[j].id
    ensures forall p :: IsProtocol(p) <==> exists i :: 0 <= i < |EmergencyTypes| && EmergencyTypes[i].id == p
    ensures forall i :: 0 <= i < |EmergencyTypes| ==>
      var e := EmergencyTypes[i];
      e.icon == Icon(e.id) && MaxSteps(e.id) > 1 && (e.color == "red" || e.color == "orange")
  {
    forall p | IsProtocol(p)
      ensures exists i :: 0 <= i < |EmergencyTypes| && EmergencyTypes[i].id == p
    {
      var i := if p == "Choking" then 0 else if p == "Heart Attack" then 1 else if p == "Stroke" then 2 else 3;
      assert EmergencyTypes[i].id == p;
    }
  }
}
