/**
 * The story of game.js (lines 122-529): 242 events, written out in parts of
 * ten so that the lookups over it can be proved part by part. Texts are
 * replaced by placeholders of the same length, and the replies the proofs do
 * not name by stand-ins (see `Reply`); ids, jump targets, waits and typing
 * flags are the authored ones.
 */
module GameStory {
  import opened JsValues
  import opened Patterns
  import opened Script

  /** A stand-in for an authored text of `n` characters. */
  function Prose(n: nat): (r: string)
    ensures |r| == n
  {
    seq(n, _ => '.')
  }

  /** `{ text }` */
  function Say(text: string): Event {
    Event(None, None, Some(text), None, None, 0, None, None, None, None, false, None)
  }

  /** `{ text, replies }` */
  function Prompt(text: string, replies: seq<string>): Event {
    Event(None, None, Some(text), Some(replies), None, 0, None, None, None, None, false, None)
  }

  /** `{ text, typing: false }` */
  function Notice(text: string): Event {
    Event(None, None, Some(text), None, Some(false), 0, None, None, None, None, false, None)
  }

  /** `{ wait }` */
  function Wait(millis: int): Event {
    Event(None, None, None, None, None, millis, None, None, None, None, false, None)
  }

  /** The reply the jumps of events 30 and 33 look for. */
  const PassageLabel: string := ("What's " + "down the " + "passage?")

  /** The id the riddle's right answer leads to. */
  const RiddleSolved: string := ("ROT13 " + "CORRECT")

  /** `{ if }` */
  function Label(reply: string): Event {
    Event(None, Some(reply), None, None, None, 0, None, None, None, None, false, None)
  }

  /** `{ id }` */
  function Mark(id: string): Event {
    Event(Some(Str(id)), None, None, None, None, 0, None, None, None, None, false, None)
  }

  /** `{ goto }` */
  function Goto(target: string): Event {
    Event(None, None, None, None, None, 0, Some(Str(target)), None, None, None, false, None)
  }

  /** `{ input, ifMatched, else }` */
  function Input(p: Pattern, ifMatched: string, otherwise: string): Event {
    Event(None, None, None, None, None, 0, None, Some(p), Some(Str(ifMatched)), Some(Str(otherwise)), false, None)
  }


  /**
   * A stand-in for the `n`-th distinct authored reply. The interpreter only
   * compares replies with labels and messages, and stand-ins of distinct
   * replies have distinct lengths, all longer than any text kept as authored.
   */
  function Reply(n: nat): (r: string)
    ensures |r| == 100 + n
  {
    seq(100 + n, _ => '>')
  }

  /** The authored replies other than "Ok.", "Be safe." and `PassageLabel`, in order of first appearance. */
  const WhoIsThis: string := Reply(0)
  const IAmHere: string := Reply(1)
  const IHaventDoneAnythingWho: string := Reply(2)
  const NoImNotIDont: string := Reply(3)
  const CalmDownCanYouDescribe: string := Reply(4)
  const HowAreYouTalkingTo: string := Reply(5)
  const CoolWhatAboutTheRoom: string := Reply(6)
  const ItsGoodToStayPositive: string := Reply(7)
  const YeahAGameWithYour: string := Reply(8)
  const DontWorryIllBeHere: string := Reply(9)
  const ImCuriousAboutYourSituation: string := Reply(10)
  const TryTheOneWithoutThe: string := Reply(11)
  const TryTheOneWithThe: string := Reply(12)
  const WhyNotOpenBothAnd: string := Reply(13)
  const OkGoodnight: string := Reply(14)
  const ImHere: string := Reply(15)
  const GoodMorning: string := Reply(16)
  const WhyNotGoCheckOut: string := Reply(17)
  const MaybeStayForABit: string := Reply(18)
  const GoodLuck: string := Reply(19)
  const Yes: string := Reply(20)
  const HeyImHere: string := Reply(21)
  const TheEndOfWhat: string := Reply(22)
  const OkBeCareful: string := Reply(23)
  const WhatIsIt: string := Reply(24)
  const ADoor: string := Reply(25)
  const InTheForest: string := Reply(26)
  const Gone: string := Reply(27)
  const HaveYouCheckedTheOutside: string := Reply(28)
  const HaveYouCheckedThePlane: string := Reply(29)
  const CouldBe: string := Reply(30)
  const WhatWas: string := Reply(31)
  const AreYouHavingFun: string := Reply(32)
  const ImExcitedTooOpenIt: string := Reply(33)
  const WhatAboutGettingBackHome: string := Reply(34)
  const WantToCheckOutThe: string := Reply(35)
  const OkGoodLuckWithFinding: string := Reply(36)
  const WhoIsIt: string := Reply(37)
  const MaybeDrawOneOnA: string := Reply(38)
  const JustGoForItNo: string := Reply(39)
  const BetterTryFindAnotherWay: string := Reply(40)
  const IfTheresNoRiskWhy: string := Reply(41)
  const IfYoureGoingToRisk: string := Reply(42)
  const HaveYouTriedMakingA: string := Reply(43)
  const TheOldManSaidYou: string := Reply(44)
  const Nice: string := Reply(45)
  const WhatAboutGoingHome: string := Reply(46)
  const ItAlsoOpenedIntoThat: string := Reply(47)
  const WhatDoYouMean: string := Reply(48)
  const WhatAboutYourFamilyOr: string := Reply(49)
  const YouCanGoHomeNow: string := Reply(50)
  const YouShouldGo: string := Reply(51)
  const IfYouDontWantTo: string := Reply(52)
  const ItsBeenACrazyTrip: string := Reply(53)
  const HeyThatTabletIsStill: string := Reply(54)
  const WowThatsAmazing: string := Reply(55)
  const Bye: string := Reply(56)
  const GoodLuckDot: string := Reply(57)
  const OhNoIfItDies: string := Reply(58)
  const YeahItsBeenFunIm: string := Reply(59)
  const SoShesLettingYouStay: string := Reply(60)
  const ByeGoodLuck: string := Reply(61)

  /** Events 0-9 (game.js:126-143). */
  const P00: seq<Event> := [
    Notice(Prose(41)),
    Wait(4000),
    Notice(Prose(12)),
    Say(Prose(20)),
    Prompt(Prose(45), [WhoIsThis, IAmHere]),
    Label(IAmHere),
    Prompt(Prose(53), [IHaventDoneAnythingWho]),
    Prompt(Prose(42), [NoImNotIDont]),
    Say(Prose(55)),
    Label(WhoIsThis)
  ]

  /** Events 10-19 (game.js:144-162). */
  const P01: seq<Event> := [
    Say(Prose(49)),
    Say(Prose(162)),
    Prompt(Prose(156), [CalmDownCanYouDescribe, HowAreYouTalkingTo]),
    Label(HowAreYouTalkingTo),
    Say(Prose(98)),
    Prompt(Prose(173), [CoolWhatAboutTheRoom]),
    Say(Prose(116)),
    Say(Prose(112)),
    Say(Prose(172)),
    Say(Prose(30))
  ]

  /** Events 20-29 (game.js:163-185). */
  const P02: seq<Event> := [
    Say(Prose(44)),
    Wait(240000),
    Say(Prose(262)),
    Say(Prose(310)),
    Prompt(Prose(161), [ItsGoodToStayPositive, PassageLabel, YeahAGameWithYour]),
    Label(ItsGoodToStayPositive),
    Say(Prose(122)),
    Prompt(Prose(124), [DontWorryIllBeHere, ImCuriousAboutYourSituation]),
    Label(DontWorryIllBeHere),
    Say(Prose(9))
  ]

  /** Events 30-39 (game.js:186-203). */
  const P03: seq<Event> := [
    Goto(PassageLabel),
    Label(ImCuriousAboutYourSituation),
    Wait(5000),
    Goto(PassageLabel),
    Label(YeahAGameWithYour),
    Say(Prose(24)),
    Say(Prose(161)),
    Say(Prose(29)),
    Label(PassageLabel),
    Say(Prose(58))
  ]

  /** Events 40-49 (game.js:204-219). */
  const P04: seq<Event> := [
    Wait(120000),
    Say(Prose(185)),
    Say(Prose(164)),
    Prompt(Prose(37), [TryTheOneWithoutThe, TryTheOneWithThe, WhyNotOpenBothAnd]),
    Label(TryTheOneWithoutThe),
    Label(WhyNotOpenBothAnd),
    Say(Prose(5)),
    Wait(30000),
    Say(Prose(243)),
    Say(Prose(44))
  ]

  /** Events 50-59 (game.js:220-233). */
  const P05: seq<Event> := [
    Wait(5000),
    Say(Prose(58)),
    Label(TryTheOneWithThe),
    Wait(10000),
    Say(Prose(82)),
    Wait(300000),
    Say(Prose(102)),
    Say(Prose(109)),
    Say(Prose(232)),
    Wait(30000)
  ]

  /** Events 60-69 (game.js:234-257). */
  const P06: seq<Event> := [
    Prompt(Prose(73), [OkGoodnight]),
    Wait(18000000),
    Mark("MORNING1"),
    Prompt(Prose(27), [ImHere, GoodMorning]),
    Say(Prose(72)),
    Say(Prose(29)),
    Prompt(Prose(176), ["Ok.", "Be safe."]),
    Label("Be safe."),
    Say(Prose(17)),
    Label("Ok.")
  ]

  /** Events 70-79 (game.js:259-275). */
  const P07: seq<Event> := [
    Wait(1800000),
    Mark(("EXPLORE " + "BUILDING")),
    Say(Prose(196)),
    Say(Prose(249)),
    Prompt(Prose(202), [WhyNotGoCheckOut, MaybeStayForABit]),
    Label(MaybeStayForABit),
    Say(Prose(115)),
    Wait(10800000),
    Say(Prose(194)),
    Say(Prose(303))
  ]

  /** Events 80-89 (game.js:276-290). */
  const P08: seq<Event> := [
    Say(Prose(209)),
    Say(Prose(229)),
    Say(Prose(173)),
    Say(Prose(152)),
    Prompt(Prose(30), [GoodLuck]),
    Wait(1800000),
    Goto("FOREST"),
    Label(WhyNotGoCheckOut),
    Say(Prose(113)),
    Wait(1800000)
  ]

  /** Events 90-99 (game.js:291-312). */
  const P09: seq<Event> := [
    Goto("FOREST"),
    Mark("FOREST"),
    Prompt(Prose(21), [Yes, HeyImHere]),
    Prompt(Prose(27), [TheEndOfWhat]),
    Say(Prose(76)),
    Say(Prose(234)),
    Prompt(Prose(49), [OkBeCareful]),
    Say(Prose(14)),
    Wait(1800000),
    Mark("FOREST DOOR")
  ]

  /** Events 100-109 (game.js:313-330). */
  const P10: seq<Event> := [
    Prompt(Prose(53), [WhatIsIt]),
    Prompt(Prose(12), [ADoor, InTheForest]),
    Say(Prose(263)),
    Say(Prose(130)),
    Say(Prose(30)),
    Say(Prose(194)),
    Say(Prose(200)),
    Mark("ROT13 ASK"),
    Input(Pattern("haybpx", false), RiddleSolved, "ROT13 WRONG"),
    Mark("ROT13 WRONG")
  ]

  /** Events 110-119 (game.js:331-345). */
  const P11: seq<Event> := [
    Say(Prose(23)),
    Goto("ROT13 ASK"),
    Mark(RiddleSolved),
    Say(Prose(99)),
    Say(Prose(287)),
    Say(Prose(90)),
    Wait(1800000),
    Mark("WORKSHOP"),
    Prompt(Prose(15), [ImHere]),
    Say(Prose(266))
  ]

  /** Events 120-129 (game.js:346-362). */
  const P12: seq<Event> := [
    Prompt(Prose(40), [Gone]),
    Say(Prose(68)),
    Wait(30000),
    Say(Prose(339)),
    Say(Prose(166)),
    Say(Prose(214)),
    Say(Prose(329)),
    Say(Prose(110)),
    Prompt(Prose(59), [HaveYouCheckedTheOutside, HaveYouCheckedThePlane]),
    Label(HaveYouCheckedTheOutside)
  ]

  /** Events 130-139 (game.js:363-376). */
  const P13: seq<Event> := [
    Prompt(Prose(194), [GoodLuck]),
    Wait(3600000),
    Say(Prose(275)),
    Say(Prose(144)),
    Wait(3600000),
    Say(Prose(54)),
    Goto("PLANE PUZZLE"),
    Label(HaveYouCheckedThePlane),
    Say(Prose(112)),
    Mark("PLANE PUZZLE")
  ]

  /** Events 140-149 (game.js:377-394). */
  const P14: seq<Event> := [
    Wait(2700000),
    Say(Prose(249)),
    Say(Prose(281)),
    Prompt(Prose(205), [CouldBe]),
    Say(Prose(84)),
    Wait(14400000),
    Prompt(Prose(38), [WhatWas]),
    Prompt(Prose(233), [AreYouHavingFun, ImExcitedTooOpenIt]),
    Label(AreYouHavingFun),
    Prompt(Prose(176), [WhatAboutGettingBackHome])
  ]

  /** Events 150-159 (game.js:397-411). */
  const P15: seq<Event> := [
    Wait(30000),
    Prompt(Prose(7), [WantToCheckOutThe]),
    Say(Prose(31)),
    Label(ImExcitedTooOpenIt),
    Say(Prose(16)),
    Wait(60000),
    Mark(("FLOATING " + "ISLAND")),
    Prompt(Prose(19), [WhatIsIt]),
    Say(Prose(33)),
    Wait(10000)
  ]

  /** Events 160-169 (game.js:412-423). */
  const P16: seq<Event> := [
    Say(Prose(327)),
    Say(Prose(153)),
    Prompt(Prose(80), [OkGoodLuckWithFinding]),
    Say(Prose(9)),
    Wait(1800000),
    Prompt(Prose(323), [WhoIsIt]),
    Say(Prose(271)),
    Say(Prose(162)),
    Wait(1800000),
    Say(Prose(166))
  ]

  /** Events 170-179 (game.js:424-440). */
  const P17: seq<Event> := [
    Say(Prose(234)),
    Prompt(Prose(365), [MaybeDrawOneOnA]),
    Say(Prose(94)),
    Wait(300000),
    Say(Prose(271)),
    Prompt(Prose(110), [JustGoForItNo, BetterTryFindAnotherWay]),
    Label(BetterTryFindAnotherWay),
    Say(Prose(136)),
    Wait(1800000),
    Prompt(Prose(245), [IfTheresNoRiskWhy, IfYoureGoingToRisk])
  ]

  /** Events 180-189 (game.js:446-459). */
  const P18: seq<Event> := [
    Label(IfYoureGoingToRisk),
    Say(Prose(11)),
    Goto("DARK ROOM"),
    Label(IfTheresNoRiskWhy),
    Say(Prose(7)),
    Say(Prose(72)),
    Wait(30000),
    Say(Prose(207)),
    Goto("DARK ROOM"),
    Mark("DARK ROOM")
  ]

  /** Events 190-199 (game.js:460-471). */
  const P19: seq<Event> := [
    Label(JustGoForItNo),
    Say(Prose(187)),
    Prompt(Prose(78), [GoodLuck]),
    Wait(600000),
    Say(Prose(246)),
    Prompt(Prose(65), [HaveYouTriedMakingA]),
    Prompt(Prose(17), [TheOldManSaidYou]),
    Say(Prose(112)),
    Wait(30000),
    Prompt(Prose(111), [Nice])
  ]

  /** Events 200-209 (game.js:472-485). */
  const P20: seq<Event> := [
    Say(Prose(70)),
    Wait(30000),
    Prompt(Prose(142), [WhatAboutGoingHome]),
    Prompt(Prose(50), [ItAlsoOpenedIntoThat]),
    Prompt(Prose(81), [WhatDoYouMean]),
    Prompt(Prose(65), [WhatAboutYourFamilyOr]),
    Say(Prose(23)),
    Wait(10000),
    Say(Prose(233)),
    Say(Prose(100))
  ]

  /** Events 210-219 (game.js:486-501). */
  const P21: seq<Event> := [
    Wait(30000),
    Prompt(Prose(12), [YouCanGoHomeNow]),
    Prompt(Prose(92), [YouShouldGo, IfYouDontWantTo]),
    Mark("GOING HOME"),
    Label(YouShouldGo),
    Prompt(Prose(239), [ItsBeenACrazyTrip]),
    Say(Prose(24)),
    Wait(900000),
    Prompt(Prose(21), [HeyThatTabletIsStill]),
    Say(Prose(354))
  ]

  /** Events 220-229 (game.js:502-513). */
  const P22: seq<Event> := [
    Prompt(Prose(254), [WowThatsAmazing]),
    Prompt(Prose(98), [Bye]),
    Wait(900000),
    Notice(Prose(43)),
    Goto("END"),
    Mark("WITCH HOUSE"),
    Label(IfYouDontWantTo),
    Say(Prose(146)),
    Prompt(Prose(111), [GoodLuckDot]),
    Wait(15000)
  ]

  /** Events 230-239 (game.js:514-525). */
  const P23: seq<Event> := [
    Prompt(Prose(275), [OkBeCareful]),
    Wait(900000),
    Say(Prose(298)),
    Prompt(Prose(170), [OhNoIfItDies]),
    Prompt(Prose(312), [YeahItsBeenFunIm]),
    Say(Prose(54)),
    Say(Prose(212)),
    Prompt(Prose(312), [SoShesLettingYouStay]),
    Say(Prose(244)),
    Prompt(Prose(57), [ByeGoodLuck])
  ]

  /** Events 240-241 (game.js:526-527). */
  const P24: seq<Event> := [
    Notice(Prose(43)),
    Goto("END")
  ]

  /** The story, part by part. */
  const Parts: seq<seq<Event>> := [P00, P01, P02, P03, P04, P05, P06, P07, P08, P09, P10, P11, P12, P13, P14, P15, P16, P17, P18, P19, P20, P21, P22, P23, P24]

  /** The story as authored. */
  const Authored: seq<Event> := Concat(Parts)

  /** The story as the interpreter runs it, after the preparation at startup. */
  const Story: seq<Event> := Prepared(Authored)

  // ---------------------------------------------------------------------------
  // The lookups the story's jumps and answers perform

  const End := ByIdOrLabel(Str("END"))
  const Passage := ByIdOrLabel(Str(PassageLabel))
  const Forest := ByIdOrLabel(Str("FOREST"))
  const RotAsk := ByIdOrLabel(Str("ROT13 ASK"))
  const RotCorrect := ByIdOrLabel(Str(RiddleSolved))
  const RotWrong := ByIdOrLabel(Str("ROT13 WRONG"))
  const Plane := ByIdOrLabel(Str("PLANE PUZZLE"))
  const DarkRoom := ByIdOrLabel(Str("DARK ROOM"))
  const OkReply := ByLabel("Ok.")
  /** The successor preparation gives the last event. */
  const Finale := ById(Str("end"))

  // ---------------------------------------------------------------------------
  // Facts about single parts


  lemma Named00()
    ensures NamedIds(P00)
  {
  }

  lemma NoEnd00() ensures Misses(P00, End) {}

  lemma NoFinale00() ensures Misses(P00, Finale) {}

  lemma NoRotAsk00() ensures Misses(P00, RotAsk) {}

  lemma NoRotWrong00() ensures Misses(P00, RotWrong) {}

  lemma NoRotCorrect00() ensures Misses(P00, RotCorrect) {}

  lemma NoOkReply00() ensures Misses(P00, OkReply) {}

  lemma Named01()
    ensures NamedIds(P01)
  {
  }

  lemma NoEnd01() ensures Misses(P01, End) {}

  lemma NoFinale01() ensures Misses(P01, Finale) {}

  lemma NoRotAsk01() ensures Misses(P01, RotAsk) {}

  lemma NoRotWrong01() ensures Misses(P01, RotWrong) {}

  lemma NoRotCorrect01() ensures Misses(P01, RotCorrect) {}

  lemma NoOkReply01() ensures Misses(P01, OkReply) {}

  lemma Named02()
    ensures NamedIds(P02)
  {
  }

  lemma NoEnd02() ensures Misses(P02, End) {}

  lemma NoFinale02() ensures Misses(P02, Finale) {}

  lemma NoRotAsk02() ensures Misses(P02, RotAsk) {}

  lemma NoRotWrong02() ensures Misses(P02, RotWrong) {}

  lemma NoRotCorrect02() ensures Misses(P02, RotCorrect) {}

  lemma NoOkReply02() ensures Misses(P02, OkReply) {}

  lemma Named03()
    ensures NamedIds(P03)
  {
  }

  lemma NoEnd03() ensures Misses(P03, End) {}

  lemma NoFinale03() ensures Misses(P03, Finale) {}

  lemma NoRotAsk03() ensures Misses(P03, RotAsk) {}

  lemma NoRotWrong03() ensures Misses(P03, RotWrong) {}

  lemma NoRotCorrect03() ensures Misses(P03, RotCorrect) {}

  lemma NoOkReply03() ensures Misses(P03, OkReply) {}

  lemma PassageIn03From0()
    ensures FirstFrom(P03, 0, Passage) == Some(8)
  {
    assert forall j | 0 <= j < 8 :: !Hits(P03[j], Passage);
    assert Hits(P03[8], Passage);
    FoundAt(P03, 0, Passage, 8);
  }

  lemma PassageIn03From3()
    ensures FirstFrom(P03, 3, Passage) == Some(8)
  {
    assert forall j | 3 <= j < 8 :: !Hits(P03[j], Passage);
    assert Hits(P03[8], Passage);
    FoundAt(P03, 3, Passage, 8);
  }

  lemma Named04()
    ensures NamedIds(P04)
  {
  }

  lemma NoEnd04() ensures Misses(P04, End) {}

  lemma NoFinale04() ensures Misses(P04, Finale) {}

  lemma NoRotAsk04() ensures Misses(P04, RotAsk) {}

  lemma NoRotWrong04() ensures Misses(P04, RotWrong) {}

  lemma NoRotCorrect04() ensures Misses(P04, RotCorrect) {}

  lemma NoOkReply04() ensures Misses(P04, OkReply) {}

  lemma Named05()
    ensures NamedIds(P05)
  {
  }

  lemma NoEnd05() ensures Misses(P05, End) {}

  lemma NoFinale05() ensures Misses(P05, Finale) {}

  lemma NoRotAsk05() ensures Misses(P05, RotAsk) {}

  lemma NoRotWrong05() ensures Misses(P05, RotWrong) {}

  lemma NoRotCorrect05() ensures Misses(P05, RotCorrect) {}

  lemma NoOkReply05() ensures Misses(P05, OkReply) {}

  lemma Named06()
    ensures NamedIds(P06)
  {
    NameIsNoNumber("MORNING1");
  }

  lemma NoEnd06() ensures Misses(P06, End) {}

  lemma NoFinale06() ensures Misses(P06, Finale) {}

  lemma NoRotAsk06() ensures Misses(P06, RotAsk) {}

  lemma NoRotWrong06() ensures Misses(P06, RotWrong) {}

  lemma NoRotCorrect06() ensures Misses(P06, RotCorrect) {}

  lemma OkReplyIn06From0()
    ensures FirstFrom(P06, 0, OkReply) == Some(9)
  {
    assert forall j | 0 <= j < 9 :: !Hits(P06[j], OkReply);
    assert Hits(P06[9], OkReply);
    FoundAt(P06, 0, OkReply, 9);
  }

  lemma Named07()
    ensures NamedIds(P07)
  {
    NameIsNoNumber(("EXPLORE " + "BUILDING"));
  }

  lemma NoEnd07() ensures Misses(P07, End) {}

  lemma NoFinale07() ensures Misses(P07, Finale) {}

  lemma NoRotAsk07() ensures Misses(P07, RotAsk) {}

  lemma NoRotWrong07() ensures Misses(P07, RotWrong) {}

  lemma NoRotCorrect07() ensures Misses(P07, RotCorrect) {}

  lemma Named08()
    ensures NamedIds(P08)
  {
  }

  lemma NoEnd08() ensures Misses(P08, End) {}

  lemma NoFinale08() ensures Misses(P08, Finale) {}

  lemma NoRotAsk08() ensures Misses(P08, RotAsk) {}

  lemma NoRotWrong08() ensures Misses(P08, RotWrong) {}

  lemma NoRotCorrect08() ensures Misses(P08, RotCorrect) {}

  lemma ForestIn08From6()
    ensures FirstFrom(P08, 6, Forest) == None
  {
    assert forall j | 6 <= j < 10 :: !Hits(P08[j], Forest);
    FoundNone(P08, 6, Forest);
  }

  lemma Named09()
    ensures NamedIds(P09)
  {
    NameIsNoNumber("FOREST");
    NameIsNoNumber("FOREST DOOR");
  }

  lemma NoEnd09() ensures Misses(P09, End) {}

  lemma NoFinale09() ensures Misses(P09, Finale) {}

  lemma NoRotAsk09() ensures Misses(P09, RotAsk) {}

  lemma NoRotWrong09() ensures Misses(P09, RotWrong) {}

  lemma NoRotCorrect09() ensures Misses(P09, RotCorrect) {}

  lemma ForestIn09From0()
    ensures FirstFrom(P09, 0, Forest) == Some(1)
  {
    assert forall j | 0 <= j < 1 :: !Hits(P09[j], Forest);
    assert Hits(P09[1], Forest);
    FoundAt(P09, 0, Forest, 1);
  }

  lemma Named10()
    ensures NamedIds(P10)
  {
    NameIsNoNumber("ROT13 ASK");
    NameIsNoNumber("ROT13 WRONG");
  }

  lemma NoEnd10() ensures Misses(P10, End) {}

  lemma NoFinale10() ensures Misses(P10, Finale) {}

  lemma NoRotCorrect10() ensures Misses(P10, RotCorrect) {}

  lemma RotAskIn10From0()
    ensures FirstFrom(P10, 0, RotAsk) == Some(7)
  {
    assert forall j | 0 <= j < 7 :: !Hits(P10[j], RotAsk);
    assert Hits(P10[7], RotAsk);
    FoundAt(P10, 0, RotAsk, 7);
  }

  lemma RotWrongIn10From0()
    ensures FirstFrom(P10, 0, RotWrong) == Some(9)
  {
    assert forall j | 0 <= j < 9 :: !Hits(P10[j], RotWrong);
    assert Hits(P10[9], RotWrong);
    FoundAt(P10, 0, RotWrong, 9);
  }

  lemma Named11()
    ensures NamedIds(P11)
  {
    NameIsNoNumber(RiddleSolved);
    NameIsNoNumber("WORKSHOP");
  }

  lemma NoEnd11() ensures Misses(P11, End) {}

  lemma NoFinale11() ensures Misses(P11, Finale) {}

  lemma NoRotAsk11() ensures Misses(P11, RotAsk) {}

  lemma RotCorrectIn11From0()
    ensures FirstFrom(P11, 0, RotCorrect) == Some(2)
  {
    assert forall j | 0 <= j < 2 :: !Hits(P11[j], RotCorrect);
    assert Hits(P11[2], RotCorrect);
    FoundAt(P11, 0, RotCorrect, 2);
  }

  lemma Named12()
    ensures NamedIds(P12)
  {
  }

  lemma NoEnd12() ensures Misses(P12, End) {}

  lemma NoFinale12() ensures Misses(P12, Finale) {}

  lemma NoRotAsk12() ensures Misses(P12, RotAsk) {}

  lemma Named13()
    ensures NamedIds(P13)
  {
    NameIsNoNumber("PLANE PUZZLE");
  }

  lemma NoEnd13() ensures Misses(P13, End) {}

  lemma NoFinale13() ensures Misses(P13, Finale) {}

  lemma NoRotAsk13() ensures Misses(P13, RotAsk) {}

  lemma PlaneIn13From6()
    ensures FirstFrom(P13, 6, Plane) == Some(9)
  {
    assert forall j | 6 <= j < 9 :: !Hits(P13[j], Plane);
    assert Hits(P13[9], Plane);
    FoundAt(P13, 6, Plane, 9);
  }

  lemma Named14()
    ensures NamedIds(P14)
  {
  }

  lemma NoEnd14() ensures Misses(P14, End) {}

  lemma NoFinale14() ensures Misses(P14, Finale) {}

  lemma NoRotAsk14() ensures Misses(P14, RotAsk) {}

  lemma Named15()
    ensures NamedIds(P15)
  {
    NameIsNoNumber(("FLOATING " + "ISLAND"));
  }

  lemma NoEnd15() ensures Misses(P15, End) {}

  lemma NoFinale15() ensures Misses(P15, Finale) {}

  lemma NoRotAsk15() ensures Misses(P15, RotAsk) {}

  lemma Named16()
    ensures NamedIds(P16)
  {
  }

  lemma NoEnd16() ensures Misses(P16, End) {}

  lemma NoFinale16() ensures Misses(P16, Finale) {}

  lemma NoRotAsk16() ensures Misses(P16, RotAsk) {}

  lemma Named17()
    ensures NamedIds(P17)
  {
  }

  lemma NoEnd17() ensures Misses(P17, End) {}

  lemma NoFinale17() ensures Misses(P17, Finale) {}

  lemma NoRotAsk17() ensures Misses(P17, RotAsk) {}

  lemma Named18()
    ensures NamedIds(P18)
  {
    NameIsNoNumber("DARK ROOM");
  }

  lemma NoEnd18() ensures Misses(P18, End) {}

  lemma NoFinale18() ensures Misses(P18, Finale) {}

  lemma NoRotAsk18() ensures Misses(P18, RotAsk) {}

  lemma DarkRoomIn18From2()
    ensures FirstFrom(P18, 2, DarkRoom) == Some(9)
  {
    assert forall j | 2 <= j < 9 :: !Hits(P18[j], DarkRoom);
    assert Hits(P18[9], DarkRoom);
    FoundAt(P18, 2, DarkRoom, 9);
  }

  lemma DarkRoomIn18From8()
    ensures FirstFrom(P18, 8, DarkRoom) == Some(9)
  {
    assert forall j | 8 <= j < 9 :: !Hits(P18[j], DarkRoom);
    assert Hits(P18[9], DarkRoom);
    FoundAt(P18, 8, DarkRoom, 9);
  }

  lemma Named19()
    ensures NamedIds(P19)
  {
  }

  lemma NoEnd19() ensures Misses(P19, End) {}

  lemma NoFinale19() ensures Misses(P19, Finale) {}

  lemma NoRotAsk19() ensures Misses(P19, RotAsk) {}

  lemma Named20()
    ensures NamedIds(P20)
  {
  }

  lemma NoEnd20() ensures Misses(P20, End) {}

  lemma NoFinale20() ensures Misses(P20, Finale) {}

  lemma NoRotAsk20() ensures Misses(P20, RotAsk) {}

  lemma Named21()
    ensures NamedIds(P21)
  {
    NameIsNoNumber("GOING HOME");
  }

  lemma NoEnd21() ensures Misses(P21, End) {}

  lemma NoFinale21() ensures Misses(P21, Finale) {}

  lemma NoRotAsk21() ensures Misses(P21, RotAsk) {}

  lemma Named22()
    ensures NamedIds(P22)
  {
    NameIsNoNumber("WITCH HOUSE");
  }

  lemma NoEnd22() ensures Misses(P22, End) {}

  lemma NoFinale22() ensures Misses(P22, Finale) {}

  lemma NoRotAsk22() ensures Misses(P22, RotAsk) {}

  lemma Named23()
    ensures NamedIds(P23)
  {
  }

  lemma NoEnd23() ensures Misses(P23, End) {}

  lemma NoFinale23() ensures Misses(P23, Finale) {}

  lemma NoRotAsk23() ensures Misses(P23, RotAsk) {}

  lemma Named24()
    ensures NamedIds(P24)
  {
  }

  lemma NoEnd24() ensures Misses(P24, End) {}

  lemma NoFinale24() ensures Misses(P24, Finale) {}

  lemma NoRotAsk24() ensures Misses(P24, RotAsk) {}

  // ---------------------------------------------------------------------------
  // Facts about all parts

  lemma PartSizes()
    ensures |Parts| == 25 && Tens(Parts, 24) && |Parts[24]| == 2
  {
  }

  lemma AllNamed()
    ensures forall m | 0 <= m < |Parts| :: NamedIds(Parts[m])
  {
    Named00(); Named01(); Named02(); Named03(); Named04(); Named05(); Named06(); Named07(); Named08(); Named09(); Named10(); Named11(); Named12(); Named13(); Named14(); Named15(); Named16(); Named17(); Named18(); Named19(); Named20(); Named21(); Named22(); Named23(); Named24();
  }

  /** No event has the id or label "END". */
  lemma AllNoEnd()
    ensures forall m | 0 <= m < |Parts| :: Misses(Parts[m], End)
  {
    NoEnd00(); NoEnd01(); NoEnd02(); NoEnd03(); NoEnd04(); NoEnd05(); NoEnd06(); NoEnd07(); NoEnd08(); NoEnd09(); NoEnd10(); NoEnd11(); NoEnd12(); NoEnd13(); NoEnd14(); NoEnd15(); NoEnd16(); NoEnd17(); NoEnd18(); NoEnd19(); NoEnd20(); NoEnd21(); NoEnd22(); NoEnd23(); NoEnd24();
  }

  /** No event has the id "end". */
  lemma AllNoFinale()
    ensures forall m | 0 <= m < |Parts| :: Misses(Parts[m], Finale)
  {
    NoFinale00(); NoFinale01(); NoFinale02(); NoFinale03(); NoFinale04(); NoFinale05(); NoFinale06(); NoFinale07(); NoFinale08(); NoFinale09(); NoFinale10(); NoFinale11(); NoFinale12(); NoFinale13(); NoFinale14(); NoFinale15(); NoFinale16(); NoFinale17(); NoFinale18(); NoFinale19(); NoFinale20(); NoFinale21(); NoFinale22(); NoFinale23(); NoFinale24();
  }

  /** The parts before the riddle do not mention "ROT13 ASK". */
  lemma EarlyNoRotAsk()
    ensures forall m | 0 <= m < 10 :: Misses(Parts[m], RotAsk)
  {
    NoRotAsk00(); NoRotAsk01(); NoRotAsk02(); NoRotAsk03(); NoRotAsk04(); NoRotAsk05(); NoRotAsk06(); NoRotAsk07(); NoRotAsk08(); NoRotAsk09();
  }

  /** Nor do the parts after it. */
  lemma LateNoRotAsk()
    ensures forall m | 11 <= m < |Parts| :: Misses(Parts[m], RotAsk)
  {
    NoRotAsk11(); NoRotAsk12(); NoRotAsk13(); NoRotAsk14(); NoRotAsk15(); NoRotAsk16(); NoRotAsk17(); NoRotAsk18(); NoRotAsk19(); NoRotAsk20(); NoRotAsk21(); NoRotAsk22(); NoRotAsk23(); NoRotAsk24();
  }

  /** The parts before the riddle do not mention "ROT13 WRONG". */
  lemma EarlyNoRotWrong()
    ensures forall m | 0 <= m < 10 :: Misses(Parts[m], RotWrong)
  {
    NoRotWrong00(); NoRotWrong01(); NoRotWrong02(); NoRotWrong03(); NoRotWrong04(); NoRotWrong05(); NoRotWrong06(); NoRotWrong07(); NoRotWrong08(); NoRotWrong09();
  }

  /** The parts before its answer do not mention "ROT13 CORRECT". */
  lemma EarlyNoRotCorrect()
    ensures forall m | 0 <= m < 11 :: Misses(Parts[m], RotCorrect)
  {
    NoRotCorrect00(); NoRotCorrect01(); NoRotCorrect02(); NoRotCorrect03(); NoRotCorrect04(); NoRotCorrect05(); NoRotCorrect06(); NoRotCorrect07(); NoRotCorrect08(); NoRotCorrect09(); NoRotCorrect10();
  }

  /** The parts before the first "Ok." label. */
  lemma EarlyNoOk()
    ensures forall m | 0 <= m < 6 :: Misses(Parts[m], OkReply)
  {
    NoOkReply00(); NoOkReply01(); NoOkReply02(); NoOkReply03(); NoOkReply04(); NoOkReply05();
  }

  // ---------------------------------------------------------------------------
  // The story as a whole

  lemma AuthoredLength()
    ensures |Authored| == 242
  {
    PartSizes();
    PartsLength(Parts);
  }

  /** Every id the author wrote is a name, none of them numeric. */
  lemma AuthoredNamed()
    ensures NamedIds(Authored)
  {
    AllNamed();
    NamedParts(Parts);
  }

  /** No event carries the id or label "END", and none the id "end". */
  lemma NoEnding()
    ensures Misses(Authored, End) && Misses(Authored, Finale)
  {
    AllNoEnd();
    AllNoFinale();
    MissesParts(Parts, End);
    MissesParts(Parts, Finale);
  }

  /** No event of the prepared story carries the id or the label "END": a jump there resolves nowhere. */
  lemma EndIsNowhere()
    ensures forall k: nat :: ResolveGoto(Story, k, Str("END")) == None
  {
    NoEnding();
    NameIsNoNumber("END");
    PreparedKeepsTextLookups(Authored, 0, End);
  }

  // ---------------------------------------------------------------------------
  // Where the story's jumps land. Each fact is first proved on the parts
  // (`...InParts`), where the solver need not unfold `Authored` and `Story`.

  lemma Jump30InParts()
    ensures 30 < |Concat(Parts)| && Concat(Parts)[30] == Goto(PassageLabel)
  {
    PartSizes();
    assert Parts[3] == P03;
    EventInPart(Parts, 3, 0);
  }

  lemma Landing30InParts()
    ensures ResolveGoto(Prepared(Concat(Parts)), 30, Str(PassageLabel)) == Some(38)
  {
    PartSizes();
    assert Parts[3] == P03;
    Landing30Across(Parts);
  }

  /** Any story whose part 3 is that of the authored one resolves the jump at 30 the same way. */
  lemma Landing30Across(ps: seq<seq<Event>>)
    requires Tens(ps, 3) && 3 < |ps| && ps[3] == P03
    ensures ResolveGoto(Prepared(Concat(ps)), 30, Str(PassageLabel)) == Some(38)
  {
    PassageIn03From0();
    NameIsNoNumber(PassageLabel);
    GotoInPart(ps, 3, 0, PassageLabel, 8);
  }

  /** The first jump to "What's down the passage?" (event 30) lands on that reply's label, event 38. */
  lemma PassageGotoAt30()
    ensures 30 < |Authored| && Authored[30] == Goto(PassageLabel)
    ensures ResolveGoto(Story, 30, Str(PassageLabel)) == Some(38)
  {
    Jump30InParts();
    Landing30InParts();
  }

  lemma Jump33InParts()
    ensures 33 < |Concat(Parts)| && Concat(Parts)[33] == Goto(PassageLabel)
  {
    PartSizes();
    assert Parts[3] == P03;
    EventInPart(Parts, 3, 3);
  }

  lemma Landing33InParts()
    ensures ResolveGoto(Prepared(Concat(Parts)), 33, Str(PassageLabel)) == Some(38)
  {
    PartSizes();
    assert Parts[3] == P03;
    Landing33Across(Parts);
  }

  /** Any story whose part 3 is that of the authored one resolves the jump at 33 the same way. */
  lemma Landing33Across(ps: seq<seq<Event>>)
    requires Tens(ps, 3) && 3 < |ps| && ps[3] == P03
    ensures ResolveGoto(Prepared(Concat(ps)), 33, Str(PassageLabel)) == Some(38)
  {
    PassageIn03From3();
    NameIsNoNumber(PassageLabel);
    GotoInPart(ps, 3, 3, PassageLabel, 8);
  }

  /** The second jump to "What's down the passage?" (event 33) lands on that reply's label, event 38. */
  lemma PassageGotoAt33()
    ensures 33 < |Authored| && Authored[33] == Goto(PassageLabel)
    ensures ResolveGoto(Story, 33, Str(PassageLabel)) == Some(38)
  {
    Jump33InParts();
    Landing33InParts();
  }

  lemma Jump86InParts()
    ensures 86 < |Concat(Parts)| && Concat(Parts)[86] == Goto("FOREST")
  {
    PartSizes();
    assert Parts[8] == P08;
    EventInPart(Parts, 8, 6);
  }

  lemma Landing86InParts()
    ensures ResolveGoto(Prepared(Concat(Parts)), 86, Str("FOREST")) == Some(91)
  {
    PartSizes();
    assert Parts[8] == P08 && Parts[9] == P09;
    Landing86Across(Parts);
  }

  /** Any story whose parts 8 and 9 are those of the authored one resolves the jump at 86 to 91. */
  lemma Landing86Across(ps: seq<seq<Event>>)
    requires Tens(ps, 9) && 9 < |ps| && ps[8] == P08 && ps[9] == P09
    ensures ResolveGoto(Prepared(Concat(ps)), 86, Str("FOREST")) == Some(91)
  {
    ForestIn08From6();
    ForestIn09From0();
    NameIsNoNumber("FOREST");
    GotoIntoNextPart(ps, 8, 6, "FOREST", 1);
  }

  /** The jump to "FOREST" at event 86 lands on the event of that id, event 91, in the next part. */
  lemma ForestGotoAt86()
    ensures 86 < |Authored| && Authored[86] == Goto("FOREST")
    ensures ResolveGoto(Story, 86, Str("FOREST")) == Some(91)
  {
    Jump86InParts();
    Landing86InParts();
  }

  lemma Jump90InParts()
    ensures 90 < |Concat(Parts)| && Concat(Parts)[90] == Goto("FOREST")
  {
    PartSizes();
    assert Parts[9] == P09;
    EventInPart(Parts, 9, 0);
  }

  lemma Landing90InParts()
    ensures ResolveGoto(Prepared(Concat(Parts)), 90, Str("FOREST")) == Some(91)
  {
    PartSizes();
    assert Parts[9] == P09;
    Landing90Across(Parts);
  }

  /** Any story whose part 9 is that of the authored one resolves the jump at 90 the same way. */
  lemma Landing90Across(ps: seq<seq<Event>>)
    requires Tens(ps, 9) && 9 < |ps| && ps[9] == P09
    ensures ResolveGoto(Prepared(Concat(ps)), 90, Str("FOREST")) == Some(91)
  {
    ForestIn09From0();
    NameIsNoNumber("FOREST");
    GotoInPart(ps, 9, 0, "FOREST", 1);
  }

  /** The jump to "FOREST" at event 90 lands on the event of that id, event 91. */
  lemma ForestGotoAt90()
    ensures 90 < |Authored| && Authored[90] == Goto("FOREST")
    ensures ResolveGoto(Story, 90, Str("FOREST")) == Some(91)
  {
    Jump90InParts();
    Landing90InParts();
  }

  lemma Jump111InParts()
    ensures 111 < |Concat(Parts)| && Concat(Parts)[111] == Goto("ROT13 ASK")
  {
    PartSizes();
    assert Parts[11] == P11;
    EventInPart(Parts, 11, 1);
  }

  lemma Landing111InParts()
    ensures ResolveGoto(Prepared(Concat(Parts)), 111, Str("ROT13 ASK")) == Some(107)
  {
    PartSizes();
    LateNoRotAsk();
    EarlyNoRotAsk();
    RotAskIn10From0();
    assert Parts[10] == P10;
    NameIsNoNumber("ROT13 ASK");
    GotoBack(Parts, 11, 1, "ROT13 ASK", 10, 7);
  }

  /** The jump back to the riddle (event 111 to "ROT13 ASK") finds nothing after itself and is resolved by the lookup from the start, at event 107. */
  lemma RiddleGotoAt111()
    ensures 111 < |Authored| && Authored[111] == Goto("ROT13 ASK")
    ensures ResolveGoto(Story, 111, Str("ROT13 ASK")) == Some(107)
  {
    Jump111InParts();
    Landing111InParts();
  }

  lemma Jump136InParts()
    ensures 136 < |Concat(Parts)| && Concat(Parts)[136] == Goto("PLANE PUZZLE")
  {
    PartSizes();
    assert Parts[13] == P13;
    EventInPart(Parts, 13, 6);
  }

  lemma Landing136InParts()
    ensures ResolveGoto(Prepared(Concat(Parts)), 136, Str("PLANE PUZZLE")) == Some(139)
  {
    PartSizes();
    assert Parts[13] == P13;
    Landing136Across(Parts);
  }

  /** Any story whose part 13 is that of the authored one resolves the jump at 136 the same way. */
  lemma Landing136Across(ps: seq<seq<Event>>)
    requires Tens(ps, 13) && 13 < |ps| && ps[13] == P13
    ensures ResolveGoto(Prepared(Concat(ps)), 136, Str("PLANE PUZZLE")) == Some(139)
  {
    PlaneIn13From6();
    NameIsNoNumber("PLANE PUZZLE");
    GotoInPart(ps, 13, 6, "PLANE PUZZLE", 9);
  }

  /** The jump to "PLANE PUZZLE" (event 136) lands on the event of that id, event 139. */
  lemma PlaneGotoAt136()
    ensures 136 < |Authored| && Authored[136] == Goto("PLANE PUZZLE")
    ensures ResolveGoto(Story, 136, Str("PLANE PUZZLE")) == Some(139)
  {
    Jump136InParts();
    Landing136InParts();
  }

  lemma Jump182InParts()
    ensures 182 < |Concat(Parts)| && Concat(Parts)[182] == Goto("DARK ROOM")
  {
    PartSizes();
    assert Parts[18] == P18;
    EventInPart(Parts, 18, 2);
  }

  lemma Landing182InParts()
    ensures ResolveGoto(Prepared(Concat(Parts)), 182, Str("DARK ROOM")) == Some(189)
  {
    PartSizes();
    assert Parts[18] == P18;
    Landing182Across(Parts);
  }

  /** Any story whose part 18 is that of the authored one resolves the jump at 182 the same way. */
  lemma Landing182Across(ps: seq<seq<Event>>)
    requires Tens(ps, 18) && 18 < |ps| && ps[18] == P18
    ensures ResolveGoto(Prepared(Concat(ps)), 182, Str("DARK ROOM")) == Some(189)
  {
    DarkRoomIn18From2();
    NameIsNoNumber("DARK ROOM");
    GotoInPart(ps, 18, 2, "DARK ROOM", 9);
  }

  /** The first jump to "DARK ROOM" (event 182) lands on the event of that id, event 189. */
  lemma DarkRoomGotoAt182()
    ensures 182 < |Authored| && Authored[182] == Goto("DARK ROOM")
    ensures ResolveGoto(Story, 182, Str("DARK ROOM")) == Some(189)
  {
    Jump182InParts();
    Landing182InParts();
  }

  lemma Jump188InParts()
    ensures 188 < |Concat(Parts)| && Concat(Parts)[188] == Goto("DARK ROOM")
  {
    PartSizes();
    assert Parts[18] == P18;
    EventInPart(Parts, 18, 8);
  }

  lemma Landing188InParts()
    ensures ResolveGoto(Prepared(Concat(Parts)), 188, Str("DARK ROOM")) == Some(189)
  {
    PartSizes();
    assert Parts[18] == P18;
    Landing188Across(Parts);
  }

  /** Any story whose part 18 is that of the authored one resolves the jump at 188 the same way. */
  lemma Landing188Across(ps: seq<seq<Event>>)
    requires Tens(ps, 18) && 18 < |ps| && ps[18] == P18
    ensures ResolveGoto(Prepared(Concat(ps)), 188, Str("DARK ROOM")) == Some(189)
  {
    DarkRoomIn18From8();
    NameIsNoNumber("DARK ROOM");
    GotoInPart(ps, 18, 8, "DARK ROOM", 9);
  }

  /** The second jump to "DARK ROOM" (event 188) lands on the event of that id, event 189. */
  lemma DarkRoomGotoAt188()
    ensures 188 < |Authored| && Authored[188] == Goto("DARK ROOM")
    ensures ResolveGoto(Story, 188, Str("DARK ROOM")) == Some(189)
  {
    Jump188InParts();
    Landing188InParts();
  }

  lemma Jump224InParts()
    ensures 224 < |Concat(Parts)| && Concat(Parts)[224] == Goto("END")
  {
    PartSizes();
    assert Parts[22] == P22;
    EventInPart(Parts, 22, 4);
  }

  lemma Jump241InParts()
    ensures 241 < |Concat(Parts)| && Concat(Parts)[241] == Goto("END")
  {
    PartSizes();
    assert Parts[24] == P24;
    EventInPart(Parts, 24, 1);
  }

  /** The two last jumps (events 224 and 241) go to "END". */
  lemma EndGotos()
    ensures 241 < |Authored| && Authored[224] == Goto("END") && Authored[241] == Goto("END")
  {
    Jump224InParts();
    Jump241InParts();
  }

  // ---------------------------------------------------------------------------
  // The riddle, and the prompt of event 66

  lemma RiddleInParts()
    ensures 108 < |Concat(Parts)| && Concat(Parts)[108] == Input(Pattern("haybpx", false), RiddleSolved, "ROT13 WRONG")
  {
    PartSizes();
    assert Parts[10] == P10;
    EventInPart(Parts, 10, 8);
  }

  lemma WrongMarkInParts()
    ensures 109 < |Concat(Parts)| && Concat(Parts)[109] == Mark("ROT13 WRONG")
  {
    PartSizes();
    assert Parts[10] == P10;
    EventInPart(Parts, 10, 9);
  }

  lemma SolvedMarkInParts()
    ensures 112 < |Concat(Parts)| && Concat(Parts)[112] == Mark(RiddleSolved)
  {
    PartSizes();
    assert Parts[11] == P11;
    EventInPart(Parts, 11, 2);
  }

  lemma RiddleWrongInParts()
    ensures FirstFrom(Concat(Parts), 0, RotWrong) == Some(109)
  {
    PartSizes();
    EarlyNoRotWrong();
    RotWrongIn10From0();
    assert Parts[10] == P10;
    ScanFromStart(Parts, 10, RotWrong, 9);
  }

  lemma RiddleSolvedInParts()
    ensures FirstFrom(Concat(Parts), 0, RotCorrect) == Some(112)
  {
    PartSizes();
    EarlyNoRotCorrect();
    RotCorrectIn11From0();
    assert Parts[11] == P11;
    ScanFromStart(Parts, 11, RotCorrect, 2);
  }

  /**
   * The riddle's input event (108) and where its two branches lead: the first
   * event named "ROT13 CORRECT" is 112, the first named "ROT13 WRONG" is 109.
   */
  lemma RiddleTargets()
    ensures 112 < |Authored|
    ensures Authored[108] == Input(Pattern("haybpx", false), RiddleSolved, "ROT13 WRONG")
    ensures Authored[109] == Mark("ROT13 WRONG") && Authored[112] == Mark(RiddleSolved)
    ensures FirstFrom(Authored, 0, RotWrong) == Some(109) && FirstFrom(Authored, 0, RotCorrect) == Some(112)
  {
    RiddleInParts();
    WrongMarkInParts();
    SolvedMarkInParts();
    RiddleWrongInParts();
    RiddleSolvedInParts();
  }

  lemma OpeningInParts()
    ensures 0 < |Concat(Parts)| && Concat(Parts)[0] == Notice(Prose(41))
  {
    PartSizes();
    assert Parts[0] == P00;
    EventInPart(Parts, 0, 0);
  }

  lemma FirstWaitInParts()
    ensures 1 < |Concat(Parts)| && Concat(Parts)[1] == Wait(4000)
  {
    PartSizes();
    assert Parts[0] == P00;
    EventInPart(Parts, 0, 1);
  }

  /** The story opens with a notice and a wait of four seconds. */
  lemma Opening()
    ensures 1 < |Authored| && Authored[0] == Notice(Prose(41)) && Authored[1] == Wait(4000)
  {
    OpeningInParts();
    FirstWaitInParts();
  }

  lemma SafeLabelInParts()
    ensures 67 < |Concat(Parts)| && Concat(Parts)[67] == Label("Be safe.")
  {
    PartSizes();
    assert Parts[6] == P06;
    EventInPart(Parts, 6, 7);
  }

  lemma OkPromptInParts()
    ensures 66 < |Concat(Parts)| && Concat(Parts)[66] == Prompt(Prose(176), ["Ok.", "Be safe."])
  {
    PartSizes();
    assert Parts[6] == P06;
    EventInPart(Parts, 6, 6);
  }

  lemma OkLabelInParts()
    ensures 69 < |Concat(Parts)| && Concat(Parts)[69] == Label("Ok.")
  {
    PartSizes();
    assert Parts[6] == P06;
    EventInPart(Parts, 6, 9);
  }

  lemma OkLookupInParts()
    ensures FirstFrom(Concat(Parts), 0, OkReply) == Some(69)
  {
    PartSizes();
    EarlyNoOk();
    OkReplyIn06From0();
    assert Parts[6] == P06;
    ScanFromStart(Parts, 6, OkReply, 9);
  }

  /**
   * Event 66 asks with the replies "Ok." and "Be safe."; the event after it is
   * the label "Be safe.", and the first "Ok." label of the story is event 69.
   */
  lemma OkPrompt()
    ensures 69 < |Authored| && Authored[66] == Prompt(Prose(176), ["Ok.", "Be safe."])
    ensures Authored[67] == Label("Be safe.") && Authored[69] == Label("Ok.")
    ensures FirstFrom(Authored, 0, OkReply) == Some(69)
  {
    OkPromptInParts();
    SafeLabelInParts();
    OkLabelInParts();
    OkLookupInParts();
  }
}
