/**
 * The data invariant of the template bank: every phrasing holds the
 * placeholder `[company]` exactly once. Each phrasing is cut by hand into the
 * text before and after its placeholder; the cut is checked against the
 * table, and a cut whose two sides hold no '[' leaves room for one
 * placeholder only.
 */
module TemplatePlaceholders {
  import opened TemplateMapper

  /** `s` holds the placeholder starting at position `k`. */
  predicate PlaceholderAt(s: string, k: nat)
  {
    k + |Placeholder| <= |s| && s[k..k + |Placeholder|] == Placeholder
  }

  /** `s` holds the placeholder at exactly one position. */
  ghost predicate HasOnePlaceholder(s: string)
  {
    exists k :: PlaceholderAt(s, k) && forall m :: PlaceholderAt(s, m) ==> m == k
  }

  /** `s` is `before`, the placeholder, then `after`, and neither side holds a '['. */
  predicate CutAtPlaceholder(s: string, before: string, after: string)
  {
    s == before + Placeholder + after && '[' !in before && '[' !in after
  }

  /** Every occurrence of the placeholder starts with '[', so a cut without other '[' fixes it. */
  lemma CutGivesOnePlaceholder(s: string, before: string, after: string)
    requires CutAtPlaceholder(s, before, after)
    ensures HasOnePlaceholder(s)
  {
    var k := |before|;
    assert s[k..k + |Placeholder|] == Placeholder;
    assert PlaceholderAt(s, k);
    assert forall j :: 0 <= j < k ==> s[j] == before[j];
    assert forall j :: k < j < k + |Placeholder| ==> s[j] == Placeholder[j - k];
    assert forall j :: k + |Placeholder| <= j < |s| ==> s[j] == after[j - k - |Placeholder|];
    forall m: nat | PlaceholderAt(s, m) ensures m == k {
      assert s[m] == s[m..m + |Placeholder|][0] == '[';
    }
    assert PlaceholderAt(s, k) && forall m :: PlaceholderAt(s, m) ==> m == k;
  }


  /** Every CheckStatus phrasing holds the placeholder exactly once. */
  lemma CheckStatusHasOnePlaceholder(i: nat)
    requires i < |CheckStatusPhrasings|
    ensures HasOnePlaceholder(CheckStatusPhrasings[i])
  {
    if i == 0 {
      CheckStatusText0();
      CheckStatusCut0();
    } else if i == 1 {
      CheckStatusText1();
      CheckStatusCut1();
    } else if i == 2 {
      CheckStatusText2();
      CheckStatusCut2();
    } else if i == 3 {
      CheckStatusText3();
      CheckStatusCut3();
    } else if i == 4 {
      CheckStatusText4();
      CheckStatusCut4();
    } else if i == 5 {
      CheckStatusText5();
      CheckStatusCut5();
    } else if i == 6 {
      CheckStatusText6();
      CheckStatusCut6();
    } else if i == 7 {
      CheckStatusText7();
      CheckStatusCut7();
    } else if i == 8 {
      CheckStatusText8();
      CheckStatusCut8();
    } else if i == 9 {
      CheckStatusText9();
      CheckStatusCut9();
    } else if i == 10 {
      CheckStatusText10();
      CheckStatusCut10();
    } else if i == 11 {
      CheckStatusText11();
      CheckStatusCut11();
    } else if i == 12 {
      CheckStatusText12();
      CheckStatusCut12();
    } else if i == 13 {
      CheckStatusText13();
      CheckStatusCut13();
    } else if i == 14 {
      CheckStatusText14();
      CheckStatusCut14();
    } else if i == 15 {
      CheckStatusText15();
      CheckStatusCut15();
    } else if i == 16 {
      CheckStatusText16();
      CheckStatusCut16();
    } else if i == 17 {
      CheckStatusText17();
      CheckStatusCut17();
    } else if i == 18 {
      CheckStatusText18();
      CheckStatusCut18();
    } else if i == 19 {
      CheckStatusText19();
      CheckStatusCut19();
    } else if i == 20 {
      CheckStatusText20();
      CheckStatusCut20();
    } else if i == 21 {
      CheckStatusText21();
      CheckStatusCut21();
    } else if i == 22 {
      CheckStatusText22();
      CheckStatusCut22();
    } else if i == 23 {
      CheckStatusText23();
      CheckStatusCut23();
    } else if i == 24 {
      CheckStatusText24();
      CheckStatusCut24();
    } else if i == 25 {
      CheckStatusText25();
      CheckStatusCut25();
    } else if i == 26 {
      CheckStatusText26();
      CheckStatusCut26();
    } else if i == 27 {
      CheckStatusText27();
      CheckStatusCut27();
    } else if i == 28 {
      CheckStatusText28();
      CheckStatusCut28();
    } else {
      CheckStatusText29();
      CheckStatusCut29();
    }
  }

  /** Every LastFunding phrasing holds the placeholder exactly once. */
  lemma LastFundingHasOnePlaceholder(i: nat)
    requires i < |LastFundingPhrasings|
    ensures HasOnePlaceholder(LastFundingPhrasings[i])
  {
    if i == 0 {
      LastFundingText0();
      LastFundingCut0();
    } else if i == 1 {
      LastFundingText1();
      LastFundingCut1();
    } else if i == 2 {
      LastFundingText2();
      LastFundingCut2();
    } else if i == 3 {
      LastFundingText3();
      LastFundingCut3();
    } else if i == 4 {
      LastFundingText4();
      LastFundingCut4();
    } else if i == 5 {
      LastFundingText5();
      LastFundingCut5();
    } else if i == 6 {
      LastFundingText6();
      LastFundingCut6();
    } else if i == 7 {
      LastFundingText7();
      LastFundingCut7();
    } else if i == 8 {
      LastFundingText8();
      LastFundingCut8();
    } else if i == 9 {
      LastFundingText9();
      LastFundingCut9();
    } else if i == 10 {
      LastFundingText10();
      LastFundingCut10();
    } else if i == 11 {
      LastFundingText11();
      LastFundingCut11();
    } else if i == 12 {
      LastFundingText12();
      LastFundingCut12();
    } else if i == 13 {
      LastFundingText13();
      LastFundingCut13();
    } else if i == 14 {
      LastFundingText14();
      LastFundingCut14();
    } else if i == 15 {
      LastFundingText15();
      LastFundingCut15();
    } else if i == 16 {
      LastFundingText16();
      LastFundingCut16();
    } else if i == 17 {
      LastFundingText17();
      LastFundingCut17();
    } else if i == 18 {
      LastFundingText18();
      LastFundingCut18();
    } else if i == 19 {
      LastFundingText19();
      LastFundingCut19();
    } else if i == 20 {
      LastFundingText20();
      LastFundingCut20();
    } else if i == 21 {
      LastFundingText21();
      LastFundingCut21();
    } else if i == 22 {
      LastFundingText22();
      LastFundingCut22();
    } else if i == 23 {
      LastFundingText23();
      LastFundingCut23();
    } else if i == 24 {
      LastFundingText24();
      LastFundingCut24();
    } else if i == 25 {
      LastFundingText25();
      LastFundingCut25();
    } else if i == 26 {
      LastFundingText26();
      LastFundingCut26();
    } else if i == 27 {
      LastFundingText27();
      LastFundingCut27();
    } else {
      LastFundingText28();
      LastFundingCut28();
    }
  }

  /** Every LastContact phrasing holds the placeholder exactly once. */
  lemma LastContactHasOnePlaceholder(i: nat)
    requires i < |LastContactPhrasings|
    ensures HasOnePlaceholder(LastContactPhrasings[i])
  {
    if i == 0 {
      LastContactText0();
      LastContactCut0();
    } else if i == 1 {
      LastContactText1();
      LastContactCut1();
    } else if i == 2 {
      LastContactText2();
      LastContactCut2();
    } else if i == 3 {
      LastContactText3();
      LastContactCut3();
    } else if i == 4 {
      LastContactText4();
      LastContactCut4();
    } else if i == 5 {
      LastContactText5();
      LastContactCut5();
    } else if i == 6 {
      LastContactText6();
      LastContactCut6();
    } else if i == 7 {
      LastContactText7();
      LastContactCut7();
    } else if i == 8 {
      LastContactText8();
      LastContactCut8();
    } else if i == 9 {
      LastContactText9();
      LastContactCut9();
    } else if i == 10 {
      LastContactText10();
      LastContactCut10();
    } else if i == 11 {
      LastContactText11();
      LastContactCut11();
    } else if i == 12 {
      LastContactText12();
      LastContactCut12();
    } else if i == 13 {
      LastContactText13();
      LastContactCut13();
    } else if i == 14 {
      LastContactText14();
      LastContactCut14();
    } else if i == 15 {
      LastContactText15();
      LastContactCut15();
    } else if i == 16 {
      LastContactText16();
      LastContactCut16();
    } else if i == 17 {
      LastContactText17();
      LastContactCut17();
    } else if i == 18 {
      LastContactText18();
      LastContactCut18();
    } else if i == 19 {
      LastContactText19();
      LastContactCut19();
    } else if i == 20 {
      LastContactText20();
      LastContactCut20();
    } else if i == 21 {
      LastContactText21();
      LastContactCut21();
    } else if i == 22 {
      LastContactText22();
      LastContactCut22();
    } else if i == 23 {
      LastContactText23();
      LastContactCut23();
    } else if i == 24 {
      LastContactText24();
      LastContactCut24();
    } else if i == 25 {
      LastContactText25();
      LastContactCut25();
    } else if i == 26 {
      LastContactText26();
      LastContactCut26();
    } else if i == 27 {
      LastContactText27();
      LastContactCut27();
    } else if i == 28 {
      LastContactText28();
      LastContactCut28();
    } else {
      LastContactText29();
      LastContactCut29();
    }
  }


  lemma CheckStatusText0()
    ensures CheckStatusPhrasings[0] == "What is the status of [company]?"
  {
  }

  lemma CheckStatusCut0()
    ensures HasOnePlaceholder("What is the status of [company]?")
  {
    CheckStatusJoin0();
    CheckStatusSides0();
    CutGivesOnePlaceholder("What is the status of [company]?", "What is the status of ", "?");
  }

  lemma CheckStatusJoin0()
    ensures "What is the status of [company]?" == "What is the status of " + "[company]" + "?"
  {
  }

  lemma CheckStatusSides0()
    ensures '[' !in "What is the status of " && '[' !in "?"
  {
  }

  lemma CheckStatusText1()
    ensures CheckStatusPhrasings[1] == "Show me the status of [company]"
  {
  }

  lemma CheckStatusCut1()
    ensures HasOnePlaceholder("Show me the status of [company]")
  {
    CheckStatusJoin1();
    CheckStatusSides1();
    CutGivesOnePlaceholder("Show me the status of [company]", "Show me the status of ", "");
  }

  lemma CheckStatusJoin1()
    ensures "Show me the status of [company]" == "Show me the status of " + "[company]" + ""
  {
  }

  lemma CheckStatusSides1()
    ensures '[' !in "Show me the status of " && '[' !in ""
  {
  }

  lemma CheckStatusText2()
    ensures CheckStatusPhrasings[2] == "What's the current status of [company]?"
  {
  }

  lemma CheckStatusCut2()
    ensures HasOnePlaceholder("What's the current status of [company]?")
  {
    CheckStatusJoin2();
    CheckStatusSides2();
    CutGivesOnePlaceholder("What's the current status of [company]?", "What's the current status of ", "?");
  }

  lemma CheckStatusJoin2()
    ensures "What's the current status of [company]?" == "What's the current status of " + "[company]" + "?"
  {
  }

  lemma CheckStatusSides2()
    ensures '[' !in "What's the current status of " && '[' !in "?"
  {
  }

  lemma CheckStatusText3()
    ensures CheckStatusPhrasings[3] == "Tell me about [company] status"
  {
  }

  lemma CheckStatusCut3()
    ensures HasOnePlaceholder("Tell me about [company] status")
  {
    CheckStatusJoin3();
    CheckStatusSides3();
    CutGivesOnePlaceholder("Tell me about [company] status", "Tell me about ", " status");
  }

  lemma CheckStatusJoin3()
    ensures "Tell me about [company] status" == "Tell me about " + "[company]" + " status"
  {
  }

  lemma CheckStatusSides3()
    ensures '[' !in "Tell me about " && '[' !in " status"
  {
  }

  lemma CheckStatusText4()
    ensures CheckStatusPhrasings[4] == "How is [company] doing?"
  {
  }

  lemma CheckStatusCut4()
    ensures HasOnePlaceholder("How is [company] doing?")
  {
    CheckStatusJoin4();
    CheckStatusSides4();
    CutGivesOnePlaceholder("How is [company] doing?", "How is ", " doing?");
  }

  lemma CheckStatusJoin4()
    ensures "How is [company] doing?" == "How is " + "[company]" + " doing?"
  {
  }

  lemma CheckStatusSides4()
    ensures '[' !in "How is " && '[' !in " doing?"
  {
  }

  lemma CheckStatusText5()
    ensures CheckStatusPhrasings[5] == "What stage is [company] in?"
  {
  }

  lemma CheckStatusCut5()
    ensures HasOnePlaceholder("What stage is [company] in?")
  {
    CheckStatusJoin5();
    CheckStatusSides5();
    CutGivesOnePlaceholder("What stage is [company] in?", "What stage is ", " in?");
  }

  lemma CheckStatusJoin5()
    ensures "What stage is [company] in?" == "What stage is " + "[company]" + " in?"
  {
  }

  lemma CheckStatusSides5()
    ensures '[' !in "What stage is " && '[' !in " in?"
  {
  }

  lemma CheckStatusText6()
    ensures CheckStatusPhrasings[6] == "What program is [company] in?"
  {
  }

  lemma CheckStatusCut6()
    ensures HasOnePlaceholder("What program is [company] in?")
  {
    CheckStatusJoin6();
    CheckStatusSides6();
    CutGivesOnePlaceholder("What program is [company] in?", "What program is ", " in?");
  }

  lemma CheckStatusJoin6()
    ensures "What program is [company] in?" == "What program is " + "[company]" + " in?"
  {
  }

  lemma CheckStatusSides6()
    ensures '[' !in "What program is " && '[' !in " in?"
  {
  }

  lemma CheckStatusText7()
    ensures CheckStatusPhrasings[7] == "Show me status of [company]"
  {
  }

  lemma CheckStatusCut7()
    ensures HasOnePlaceholder("Show me status of [company]")
  {
    CheckStatusJoin7();
    CheckStatusSides7();
    CutGivesOnePlaceholder("Show me status of [company]", "Show me status of ", "");
  }

  lemma CheckStatusJoin7()
    ensures "Show me status of [company]" == "Show me status of " + "[company]" + ""
  {
  }

  lemma CheckStatusSides7()
    ensures '[' !in "Show me status of " && '[' !in ""
  {
  }

  lemma CheckStatusText8()
    ensures CheckStatusPhrasings[8] == "What is [company] status?"
  {
  }

  lemma CheckStatusCut8()
    ensures HasOnePlaceholder("What is [company] status?")
  {
    CheckStatusJoin8();
    CheckStatusSides8();
    CutGivesOnePlaceholder("What is [company] status?", "What is ", " status?");
  }

  lemma CheckStatusJoin8()
    ensures "What is [company] status?" == "What is " + "[company]" + " status?"
  {
  }

  lemma CheckStatusSides8()
    ensures '[' !in "What is " && '[' !in " status?"
  {
  }

  lemma CheckStatusText9()
    ensures CheckStatusPhrasings[9] == "Status of [company]"
  {
  }

  lemma CheckStatusCut9()
    ensures HasOnePlaceholder("Status of [company]")
  {
    CheckStatusJoin9();
    CheckStatusSides9();
    CutGivesOnePlaceholder("Status of [company]", "Status of ", "");
  }

  lemma CheckStatusJoin9()
    ensures "Status of [company]" == "Status of " + "[company]" + ""
  {
  }

  lemma CheckStatusSides9()
    ensures '[' !in "Status of " && '[' !in ""
  {
  }

  lemma CheckStatusText10()
    ensures CheckStatusPhrasings[10] == "How is [company] doing?"
  {
  }

  lemma CheckStatusCut10()
    ensures HasOnePlaceholder("How is [company] doing?")
  {
    CheckStatusJoin10();
    CheckStatusSides10();
    CutGivesOnePlaceholder("How is [company] doing?", "How is ", " doing?");
  }

  lemma CheckStatusJoin10()
    ensures "How is [company] doing?" == "How is " + "[company]" + " doing?"
  {
  }

  lemma CheckStatusSides10()
    ensures '[' !in "How is " && '[' !in " doing?"
  {
  }

  lemma CheckStatusText11()
    ensures CheckStatusPhrasings[11] == "What's [company] status?"
  {
  }

  lemma CheckStatusCut11()
    ensures HasOnePlaceholder("What's [company] status?")
  {
    CheckStatusJoin11();
    CheckStatusSides11();
    CutGivesOnePlaceholder("What's [company] status?", "What's ", " status?");
  }

  lemma CheckStatusJoin11()
    ensures "What's [company] status?" == "What's " + "[company]" + " status?"
  {
  }

  lemma CheckStatusSides11()
    ensures '[' !in "What's " && '[' !in " status?"
  {
  }

  lemma CheckStatusText12()
    ensures CheckStatusPhrasings[12] == "Tell me about [company]"
  {
  }

  lemma CheckStatusCut12()
    ensures HasOnePlaceholder("Tell me about [company]")
  {
    CheckStatusJoin12();
    CheckStatusSides12();
    CutGivesOnePlaceholder("Tell me about [company]", "Tell me about ", "");
  }

  lemma CheckStatusJoin12()
    ensures "Tell me about [company]" == "Tell me about " + "[company]" + ""
  {
  }

  lemma CheckStatusSides12()
    ensures '[' !in "Tell me about " && '[' !in ""
  {
  }

  lemma CheckStatusText13()
    ensures CheckStatusPhrasings[13] == "Show me [company] information"
  {
  }

  lemma CheckStatusCut13()
    ensures HasOnePlaceholder("Show me [company] information")
  {
    CheckStatusJoin13();
    CheckStatusSides13();
    CutGivesOnePlaceholder("Show me [company] information", "Show me ", " information");
  }

  lemma CheckStatusJoin13()
    ensures "Show me [company] information" == "Show me " + "[company]" + " information"
  {
  }

  lemma CheckStatusSides13()
    ensures '[' !in "Show me " && '[' !in " information"
  {
  }

  lemma CheckStatusText14()
    ensures CheckStatusPhrasings[14] == "What's going on with [company]?"
  {
  }

  lemma CheckStatusCut14()
    ensures HasOnePlaceholder("What's going on with [company]?")
  {
    CheckStatusJoin14();
    CheckStatusSides14();
    CutGivesOnePlaceholder("What's going on with [company]?", "What's going on with ", "?");
  }

  lemma CheckStatusJoin14()
    ensures "What's going on with [company]?" == "What's going on with " + "[company]" + "?"
  {
  }

  lemma CheckStatusSides14()
    ensures '[' !in "What's going on with " && '[' !in "?"
  {
  }

  lemma CheckStatusText15()
    ensures CheckStatusPhrasings[15] == "Current status of [company]?"
  {
  }

  lemma CheckStatusCut15()
    ensures HasOnePlaceholder("Current status of [company]?")
  {
    CheckStatusJoin15();
    CheckStatusSides15();
    CutGivesOnePlaceholder("Current status of [company]?", "Current status of ", "?");
  }

  lemma CheckStatusJoin15()
    ensures "Current status of [company]?" == "Current status of " + "[company]" + "?"
  {
  }

  lemma CheckStatusSides15()
    ensures '[' !in "Current status of " && '[' !in "?"
  {
  }

  lemma CheckStatusText16()
    ensures CheckStatusPhrasings[16] == "Tell me the status of [company]"
  {
  }

  lemma CheckStatusCut16()
    ensures HasOnePlaceholder("Tell me the status of [company]")
  {
    CheckStatusJoin16();
    CheckStatusSides16();
    CutGivesOnePlaceholder("Tell me the status of [company]", "Tell me the status of ", "");
  }

  lemma CheckStatusJoin16()
    ensures "Tell me the status of [company]" == "Tell me the status of " + "[company]" + ""
  {
  }

  lemma CheckStatusSides16()
    ensures '[' !in "Tell me the status of " && '[' !in ""
  {
  }

  lemma CheckStatusText17()
    ensures CheckStatusPhrasings[17] == "What's happening with [company]?"
  {
  }

  lemma CheckStatusCut17()
    ensures HasOnePlaceholder("What's happening with [company]?")
  {
    CheckStatusJoin17();
    CheckStatusSides17();
    CutGivesOnePlaceholder("What's happening with [company]?", "What's happening with ", "?");
  }

  lemma CheckStatusJoin17()
    ensures "What's happening with [company]?" == "What's happening with " + "[company]" + "?"
  {
  }

  lemma CheckStatusSides17()
    ensures '[' !in "What's happening with " && '[' !in "?"
  {
  }

  lemma CheckStatusText18()
    ensures CheckStatusPhrasings[18] == "Give me [company] status"
  {
  }

  lemma CheckStatusCut18()
    ensures HasOnePlaceholder("Give me [company] status")
  {
    CheckStatusJoin18();
    CheckStatusSides18();
    CutGivesOnePlaceholder("Give me [company] status", "Give me ", " status");
  }

  lemma CheckStatusJoin18()
    ensures "Give me [company] status" == "Give me " + "[company]" + " status"
  {
  }

  lemma CheckStatusSides18()
    ensures '[' !in "Give me " && '[' !in " status"
  {
  }

  lemma CheckStatusText19()
    ensures CheckStatusPhrasings[19] == "Show [company] status"
  {
  }

  lemma CheckStatusCut19()
    ensures HasOnePlaceholder("Show [company] status")
  {
    CheckStatusJoin19();
    CheckStatusSides19();
    CutGivesOnePlaceholder("Show [company] status", "Show ", " status");
  }

  lemma CheckStatusJoin19()
    ensures "Show [company] status" == "Show " + "[company]" + " status"
  {
  }

  lemma CheckStatusSides19()
    ensures '[' !in "Show " && '[' !in " status"
  {
  }

  lemma CheckStatusText20()
    ensures CheckStatusPhrasings[20] == "What's the deal with [company]?"
  {
  }

  lemma CheckStatusCut20()
    ensures HasOnePlaceholder("What's the deal with [company]?")
  {
    CheckStatusJoin20();
    CheckStatusSides20();
    CutGivesOnePlaceholder("What's the deal with [company]?", "What's the deal with ", "?");
  }

  lemma CheckStatusJoin20()
    ensures "What's the deal with [company]?" == "What's the deal with " + "[company]" + "?"
  {
  }

  lemma CheckStatusSides20()
    ensures '[' !in "What's the deal with " && '[' !in "?"
  {
  }

  lemma CheckStatusText21()
    ensures CheckStatusPhrasings[21] == "How's [company] doing?"
  {
  }

  lemma CheckStatusCut21()
    ensures HasOnePlaceholder("How's [company] doing?")
  {
    CheckStatusJoin21();
    CheckStatusSides21();
    CutGivesOnePlaceholder("How's [company] doing?", "How's ", " doing?");
  }

  lemma CheckStatusJoin21()
    ensures "How's [company] doing?" == "How's " + "[company]" + " doing?"
  {
  }

  lemma CheckStatusSides21()
    ensures '[' !in "How's " && '[' !in " doing?"
  {
  }

  lemma CheckStatusText22()
    ensures CheckStatusPhrasings[22] == "What's up with [company]?"
  {
  }

  lemma CheckStatusCut22()
    ensures HasOnePlaceholder("What's up with [company]?")
  {
    CheckStatusJoin22();
    CheckStatusSides22();
    CutGivesOnePlaceholder("What's up with [company]?", "What's up with ", "?");
  }

  lemma CheckStatusJoin22()
    ensures "What's up with [company]?" == "What's up with " + "[company]" + "?"
  {
  }

  lemma CheckStatusSides22()
    ensures '[' !in "What's up with " && '[' !in "?"
  {
  }

  lemma CheckStatusText23()
    ensures CheckStatusPhrasings[23] == "Tell me about [company]'s status"
  {
  }

  lemma CheckStatusCut23()
    ensures HasOnePlaceholder("Tell me about [company]'s status")
  {
    CheckStatusJoin23();
    CheckStatusSides23();
    CutGivesOnePlaceholder("Tell me about [company]'s status", "Tell me about ", "'s status");
  }

  lemma CheckStatusJoin23()
    ensures "Tell me about [company]'s status" == "Tell me about " + "[company]" + "'s status"
  {
  }

  lemma CheckStatusSides23()
    ensures '[' !in "Tell me about " && '[' !in "'s status"
  {
  }

  lemma CheckStatusText24()
    ensures CheckStatusPhrasings[24] == "What's [company]'s current status?"
  {
  }

  lemma CheckStatusCut24()
    ensures HasOnePlaceholder("What's [company]'s current status?")
  {
    CheckStatusJoin24();
    CheckStatusSides24();
    CutGivesOnePlaceholder("What's [company]'s current status?", "What's ", "'s current status?");
  }

  lemma CheckStatusJoin24()
    ensures "What's [company]'s current status?" == "What's " + "[company]" + "'s current status?"
  {
  }

  lemma CheckStatusSides24()
    ensures '[' !in "What's " && '[' !in "'s current status?"
  {
  }

  lemma CheckStatusText25()
    ensures CheckStatusPhrasings[25] == "Status update for [company]"
  {
  }

  lemma CheckStatusCut25()
    ensures HasOnePlaceholder("Status update for [company]")
  {
    CheckStatusJoin25();
    CheckStatusSides25();
    CutGivesOnePlaceholder("Status update for [company]", "Status update for ", "");
  }

  lemma CheckStatusJoin25()
    ensures "Status update for [company]" == "Status update for " + "[company]" + ""
  {
  }

  lemma CheckStatusSides25()
    ensures '[' !in "Status update for " && '[' !in ""
  {
  }

  lemma CheckStatusText26()
    ensures CheckStatusPhrasings[26] == "What's the latest on [company]?"
  {
  }

  lemma CheckStatusCut26()
    ensures HasOnePlaceholder("What's the latest on [company]?")
  {
    CheckStatusJoin26();
    CheckStatusSides26();
    CutGivesOnePlaceholder("What's the latest on [company]?", "What's the latest on ", "?");
  }

  lemma CheckStatusJoin26()
    ensures "What's the latest on [company]?" == "What's the latest on " + "[company]" + "?"
  {
  }

  lemma CheckStatusSides26()
    ensures '[' !in "What's the latest on " && '[' !in "?"
  {
  }

  lemma CheckStatusText27()
    ensures CheckStatusPhrasings[27] == "How is [company] performing?"
  {
  }

  lemma CheckStatusCut27()
    ensures HasOnePlaceholder("How is [company] performing?")
  {
    CheckStatusJoin27();
    CheckStatusSides27();
    CutGivesOnePlaceholder("How is [company] performing?", "How is ", " performing?");
  }

  lemma CheckStatusJoin27()
    ensures "How is [company] performing?" == "How is " + "[company]" + " performing?"
  {
  }

  lemma CheckStatusSides27()
    ensures '[' !in "How is " && '[' !in " performing?"
  {
  }

  lemma CheckStatusText28()
    ensures CheckStatusPhrasings[28] == "What's [company]'s situation?"
  {
  }

  lemma CheckStatusCut28()
    ensures HasOnePlaceholder("What's [company]'s situation?")
  {
    CheckStatusJoin28();
    CheckStatusSides28();
    CutGivesOnePlaceholder("What's [company]'s situation?", "What's ", "'s situation?");
  }

  lemma CheckStatusJoin28()
    ensures "What's [company]'s situation?" == "What's " + "[company]" + "'s situation?"
  {
  }

  lemma CheckStatusSides28()
    ensures '[' !in "What's " && '[' !in "'s situation?"
  {
  }

  lemma CheckStatusText29()
    ensures CheckStatusPhrasings[29] == "Give me an update on [company]"
  {
  }

  lemma CheckStatusCut29()
    ensures HasOnePlaceholder("Give me an update on [company]")
  {
    CheckStatusJoin29();
    CheckStatusSides29();
    CutGivesOnePlaceholder("Give me an update on [company]", "Give me an update on ", "");
  }

  lemma CheckStatusJoin29()
    ensures "Give me an update on [company]" == "Give me an update on " + "[company]" + ""
  {
  }

  lemma CheckStatusSides29()
    ensures '[' !in "Give me an update on " && '[' !in ""
  {
  }

  lemma LastFundingText0()
    ensures LastFundingPhrasings[0] == "When did [company] last raise funding?"
  {
  }

  lemma LastFundingCut0()
    ensures HasOnePlaceholder("When did [company] last raise funding?")
  {
    LastFundingJoin0();
    LastFundingSides0();
    CutGivesOnePlaceholder("When did [company] last raise funding?", "When did ", " last raise funding?");
  }

  lemma LastFundingJoin0()
    ensures "When did [company] last raise funding?" == "When did " + "[company]" + " last raise funding?"
  {
  }

  lemma LastFundingSides0()
    ensures '[' !in "When did " && '[' !in " last raise funding?"
  {
  }

  lemma LastFundingText1()
    ensures LastFundingPhrasings[1] == "What was [company]'s last funding round?"
  {
  }

  lemma LastFundingCut1()
    ensures HasOnePlaceholder("What was [company]'s last funding round?")
  {
    LastFundingJoin1();
    LastFundingSides1();
    CutGivesOnePlaceholder("What was [company]'s last funding round?", "What was ", "'s last funding round?");
  }

  lemma LastFundingJoin1()
    ensures "What was [company]'s last funding round?" == "What was " + "[company]" + "'s last funding round?"
  {
  }

  lemma LastFundingSides1()
    ensures '[' !in "What was " && '[' !in "'s last funding round?"
  {
  }

  lemma LastFundingText2()
    ensures LastFundingPhrasings[2] == "When was [company]'s most recent funding?"
  {
  }

  lemma LastFundingCut2()
    ensures HasOnePlaceholder("When was [company]'s most recent funding?")
  {
    LastFundingJoin2();
    LastFundingSides2();
    CutGivesOnePlaceholder("When was [company]'s most recent funding?", "When was ", "'s most recent funding?");
  }

  lemma LastFundingJoin2()
    ensures "When was [company]'s most recent funding?" == "When was " + "[company]" + "'s most recent funding?"
  {
  }

  lemma LastFundingSides2()
    ensures '[' !in "When was " && '[' !in "'s most recent funding?"
  {
  }

  lemma LastFundingText3()
    ensures LastFundingPhrasings[3] == "Show me [company]'s last funding event"
  {
  }

  lemma LastFundingCut3()
    ensures HasOnePlaceholder("Show me [company]'s last funding event")
  {
    LastFundingJoin3();
    LastFundingSides3();
    CutGivesOnePlaceholder("Show me [company]'s last funding event", "Show me ", "'s last funding event");
  }

  lemma LastFundingJoin3()
    ensures "Show me [company]'s last funding event" == "Show me " + "[company]" + "'s last funding event"
  {
  }

  lemma LastFundingSides3()
    ensures '[' !in "Show me " && '[' !in "'s last funding event"
  {
  }

  lemma LastFundingText4()
    ensures LastFundingPhrasings[4] == "What's the latest funding for [company]?"
  {
  }

  lemma LastFundingCut4()
    ensures HasOnePlaceholder("What's the latest funding for [company]?")
  {
    LastFundingJoin4();
    LastFundingSides4();
    CutGivesOnePlaceholder("What's the latest funding for [company]?", "What's the latest funding for ", "?");
  }

  lemma LastFundingJoin4()
    ensures "What's the latest funding for [company]?" == "What's the latest funding for " + "[company]" + "?"
  {
  }

  lemma LastFundingSides4()
    ensures '[' !in "What's the latest funding for " && '[' !in "?"
  {
  }

  lemma LastFundingText5()
    ensures LastFundingPhrasings[5] == "When did [company] last get funding?"
  {
  }

  lemma LastFundingCut5()
    ensures HasOnePlaceholder("When did [company] last get funding?")
  {
    LastFundingJoin5();
    LastFundingSides5();
    CutGivesOnePlaceholder("When did [company] last get funding?", "When did ", " last get funding?");
  }

  lemma LastFundingJoin5()
    ensures "When did [company] last get funding?" == "When did " + "[company]" + " last get funding?"
  {
  }

  lemma LastFundingSides5()
    ensures '[' !in "When did " && '[' !in " last get funding?"
  {
  }

  lemma LastFundingText6()
    ensures LastFundingPhrasings[6] == "Tell me about [company]'s funding history"
  {
  }

  lemma LastFundingCut6()
    ensures HasOnePlaceholder("Tell me about [company]'s funding history")
  {
    LastFundingJoin6();
    LastFundingSides6();
    CutGivesOnePlaceholder("Tell me about [company]'s funding history", "Tell me about ", "'s funding history");
  }

  lemma LastFundingJoin6()
    ensures "Tell me about [company]'s funding history" == "Tell me about " + "[company]" + "'s funding history"
  {
  }

  lemma LastFundingSides6()
    ensures '[' !in "Tell me about " && '[' !in "'s funding history"
  {
  }

  lemma LastFundingText7()
    ensures LastFundingPhrasings[7] == "When did [company] last raise money?"
  {
  }

  lemma LastFundingCut7()
    ensures HasOnePlaceholder("When did [company] last raise money?")
  {
    LastFundingJoin7();
    LastFundingSides7();
    CutGivesOnePlaceholder("When did [company] last raise money?", "When did ", " last raise money?");
  }

  lemma LastFundingJoin7()
    ensures "When did [company] last raise money?" == "When did " + "[company]" + " last raise money?"
  {
  }

  lemma LastFundingSides7()
    ensures '[' !in "When did " && '[' !in " last raise money?"
  {
  }

  lemma LastFundingText8()
    ensures LastFundingPhrasings[8] == "What's [company]'s latest funding?"
  {
  }

  lemma LastFundingCut8()
    ensures HasOnePlaceholder("What's [company]'s latest funding?")
  {
    LastFundingJoin8();
    LastFundingSides8();
    CutGivesOnePlaceholder("What's [company]'s latest funding?", "What's ", "'s latest funding?");
  }

  lemma LastFundingJoin8()
    ensures "What's [company]'s latest funding?" == "What's " + "[company]" + "'s latest funding?"
  {
  }

  lemma LastFundingSides8()
    ensures '[' !in "What's " && '[' !in "'s latest funding?"
  {
  }

  lemma LastFundingText9()
    ensures LastFundingPhrasings[9] == "Show me [company] funding"
  {
  }

  lemma LastFundingCut9()
    ensures HasOnePlaceholder("Show me [company] funding")
  {
    LastFundingJoin9();
    LastFundingSides9();
    CutGivesOnePlaceholder("Show me [company] funding", "Show me ", " funding");
  }

  lemma LastFundingJoin9()
    ensures "Show me [company] funding" == "Show me " + "[company]" + " funding"
  {
  }

  lemma LastFundingSides9()
    ensures '[' !in "Show me " && '[' !in " funding"
  {
  }

  lemma LastFundingText10()
    ensures LastFundingPhrasings[10] == "When was [company]'s last funding?"
  {
  }

  lemma LastFundingCut10()
    ensures HasOnePlaceholder("When was [company]'s last funding?")
  {
    LastFundingJoin10();
    LastFundingSides10();
    CutGivesOnePlaceholder("When was [company]'s last funding?", "When was ", "'s last funding?");
  }

  lemma LastFundingJoin10()
    ensures "When was [company]'s last funding?" == "When was " + "[company]" + "'s last funding?"
  {
  }

  lemma LastFundingSides10()
    ensures '[' !in "When was " && '[' !in "'s last funding?"
  {
  }

  lemma LastFundingText11()
    ensures LastFundingPhrasings[11] == "Funding for [company]"
  {
  }

  lemma LastFundingCut11()
    ensures HasOnePlaceholder("Funding for [company]")
  {
    LastFundingJoin11();
    LastFundingSides11();
    CutGivesOnePlaceholder("Funding for [company]", "Funding for ", "");
  }

  lemma LastFundingJoin11()
    ensures "Funding for [company]" == "Funding for " + "[company]" + ""
  {
  }

  lemma LastFundingSides11()
    ensures '[' !in "Funding for " && '[' !in ""
  {
  }

  lemma LastFundingText12()
    ensures LastFundingPhrasings[12] == "Last funding round for [company]"
  {
  }

  lemma LastFundingCut12()
    ensures HasOnePlaceholder("Last funding round for [company]")
  {
    LastFundingJoin12();
    LastFundingSides12();
    CutGivesOnePlaceholder("Last funding round for [company]", "Last funding round for ", "");
  }

  lemma LastFundingJoin12()
    ensures "Last funding round for [company]" == "Last funding round for " + "[company]" + ""
  {
  }

  lemma LastFundingSides12()
    ensures '[' !in "Last funding round for " && '[' !in ""
  {
  }

  lemma LastFundingText13()
    ensures LastFundingPhrasings[13] == "When did [company] last get investment?"
  {
  }

  lemma LastFundingCut13()
    ensures HasOnePlaceholder("When did [company] last get investment?")
  {
    LastFundingJoin13();
    LastFundingSides13();
    CutGivesOnePlaceholder("When did [company] last get investment?", "When did ", " last get investment?");
  }

  lemma LastFundingJoin13()
    ensures "When did [company] last get investment?" == "When did " + "[company]" + " last get investment?"
  {
  }

  lemma LastFundingSides13()
    ensures '[' !in "When did " && '[' !in " last get investment?"
  {
  }

  lemma LastFundingText14()
    ensures LastFundingPhrasings[14] == "What's [company]'s most recent funding?"
  {
  }

  lemma LastFundingCut14()
    ensures HasOnePlaceholder("What's [company]'s most recent funding?")
  {
    LastFundingJoin14();
    LastFundingSides14();
    CutGivesOnePlaceholder("What's [company]'s most recent funding?", "What's ", "'s most recent funding?");
  }

  lemma LastFundingJoin14()
    ensures "What's [company]'s most recent funding?" == "What's " + "[company]" + "'s most recent funding?"
  {
  }

  lemma LastFundingSides14()
    ensures '[' !in "What's " && '[' !in "'s most recent funding?"
  {
  }

  lemma LastFundingText15()
    ensures LastFundingPhrasings[15] == "Show me [company]'s funding rounds"
  {
  }

  lemma LastFundingCut15()
    ensures HasOnePlaceholder("Show me [company]'s funding rounds")
  {
    LastFundingJoin15();
    LastFundingSides15();
    CutGivesOnePlaceholder("Show me [company]'s funding rounds", "Show me ", "'s funding rounds");
  }

  lemma LastFundingJoin15()
    ensures "Show me [company]'s funding rounds" == "Show me " + "[company]" + "'s funding rounds"
  {
  }

  lemma LastFundingSides15()
    ensures '[' !in "Show me " && '[' !in "'s funding rounds"
  {
  }

  lemma LastFundingText16()
    ensures LastFundingPhrasings[16] == "When was [company]'s latest funding?"
  {
  }

  lemma LastFundingCut16()
    ensures HasOnePlaceholder("When was [company]'s latest funding?")
  {
    LastFundingJoin16();
    LastFundingSides16();
    CutGivesOnePlaceholder("When was [company]'s latest funding?", "When was ", "'s latest funding?");
  }

  lemma LastFundingJoin16()
    ensures "When was [company]'s latest funding?" == "When was " + "[company]" + "'s latest funding?"
  {
  }

  lemma LastFundingSides16()
    ensures '[' !in "When was " && '[' !in "'s latest funding?"
  {
  }

  lemma LastFundingText17()
    ensures LastFundingPhrasings[17] == "Tell me about [company]'s funding"
  {
  }

  lemma LastFundingCut17()
    ensures HasOnePlaceholder("Tell me about [company]'s funding")
  {
    LastFundingJoin17();
    LastFundingSides17();
    CutGivesOnePlaceholder("Tell me about [company]'s funding", "Tell me about ", "'s funding");
  }

  lemma LastFundingJoin17()
    ensures "Tell me about [company]'s funding" == "Tell me about " + "[company]" + "'s funding"
  {
  }

  lemma LastFundingSides17()
    ensures '[' !in "Tell me about " && '[' !in "'s funding"
  {
  }

  lemma LastFundingText18()
    ensures LastFundingPhrasings[18] == "What funding did [company] get?"
  {
  }

  lemma LastFundingCut18()
    ensures HasOnePlaceholder("What funding did [company] get?")
  {
    LastFundingJoin18();
    LastFundingSides18();
    CutGivesOnePlaceholder("What funding did [company] get?", "What funding did ", " get?");
  }

  lemma LastFundingJoin18()
    ensures "What funding did [company] get?" == "What funding did " + "[company]" + " get?"
  {
  }

  lemma LastFundingSides18()
    ensures '[' !in "What funding did " && '[' !in " get?"
  {
  }

  lemma LastFundingText19()
    ensures LastFundingPhrasings[19] == "When did [company] raise money last?"
  {
  }

  lemma LastFundingCut19()
    ensures HasOnePlaceholder("When did [company] raise money last?")
  {
    LastFundingJoin19();
    LastFundingSides19();
    CutGivesOnePlaceholder("When did [company] raise money last?", "When did ", " raise money last?");
  }

  lemma LastFundingJoin19()
    ensures "When did [company] raise money last?" == "When did " + "[company]" + " raise money last?"
  {
  }

  lemma LastFundingSides19()
    ensures '[' !in "When did " && '[' !in " raise money last?"
  {
  }

  lemma LastFundingText20()
    ensures LastFundingPhrasings[20] == "Show [company] funding history"
  {
  }

  lemma LastFundingCut20()
    ensures HasOnePlaceholder("Show [company] funding history")
  {
    LastFundingJoin20();
    LastFundingSides20();
    CutGivesOnePlaceholder("Show [company] funding history", "Show ", " funding history");
  }

  lemma LastFundingJoin20()
    ensures "Show [company] funding history" == "Show " + "[company]" + " funding history"
  {
  }

  lemma LastFundingSides20()
    ensures '[' !in "Show " && '[' !in " funding history"
  {
  }

  lemma LastFundingText21()
    ensures LastFundingPhrasings[21] == "What's the latest funding round for [company]?"
  {
  }

  lemma LastFundingCut21()
    ensures HasOnePlaceholder("What's the latest funding round for [company]?")
  {
    LastFundingJoin21();
    LastFundingSides21();
    CutGivesOnePlaceholder("What's the latest funding round for [company]?", "What's the latest funding round for ", "?");
  }

  lemma LastFundingJoin21()
    ensures "What's the latest funding round for [company]?" == "What's the latest funding round for " + "[company]" + "?"
  {
  }

  lemma LastFundingSides21()
    ensures '[' !in "What's the latest funding round for " && '[' !in "?"
  {
  }

  lemma LastFundingText22()
    ensures LastFundingPhrasings[22] == "When was [company]'s most recent investment?"
  {
  }

  lemma LastFundingCut22()
    ensures HasOnePlaceholder("When was [company]'s most recent investment?")
  {
    LastFundingJoin22();
    LastFundingSides22();
    CutGivesOnePlaceholder("When was [company]'s most recent investment?", "When was ", "'s most recent investment?");
  }

  lemma LastFundingJoin22()
    ensures "When was [company]'s most recent investment?" == "When was " + "[company]" + "'s most recent investment?"
  {
  }

  lemma LastFundingSides22()
    ensures '[' !in "When was " && '[' !in "'s most recent investment?"
  {
  }

  lemma LastFundingText23()
    ensures LastFundingPhrasings[23] == "Tell me about [company]'s investments"
  {
  }

  lemma LastFundingCut23()
    ensures HasOnePlaceholder("Tell me about [company]'s investments")
  {
    LastFundingJoin23();
    LastFundingSides23();
    CutGivesOnePlaceholder("Tell me about [company]'s investments", "Tell me about ", "'s investments");
  }

  lemma LastFundingJoin23()
    ensures "Tell me about [company]'s investments" == "Tell me about " + "[company]" + "'s investments"
  {
  }

  lemma LastFundingSides23()
    ensures '[' !in "Tell me about " && '[' !in "'s investments"
  {
  }

  lemma LastFundingText24()
    ensures LastFundingPhrasings[24] == "What's [company]'s funding status?"
  {
  }

  lemma LastFundingCut24()
    ensures HasOnePlaceholder("What's [company]'s funding status?")
  {
    LastFundingJoin24();
    LastFundingSides24();
    CutGivesOnePlaceholder("What's [company]'s funding status?", "What's ", "'s funding status?");
  }

  lemma LastFundingJoin24()
    ensures "What's [company]'s funding status?" == "What's " + "[company]" + "'s funding status?"
  {
  }

  lemma LastFundingSides24()
    ensures '[' !in "What's " && '[' !in "'s funding status?"
  {
  }

  lemma LastFundingText25()
    ensures LastFundingPhrasings[25] == "Show me [company]'s investment history"
  {
  }

  lemma LastFundingCut25()
    ensures HasOnePlaceholder("Show me [company]'s investment history")
  {
    LastFundingJoin25();
    LastFundingSides25();
    CutGivesOnePlaceholder("Show me [company]'s investment history", "Show me ", "'s investment history");
  }

  lemma LastFundingJoin25()
    ensures "Show me [company]'s investment history" == "Show me " + "[company]" + "'s investment history"
  {
  }

  lemma LastFundingSides25()
    ensures '[' !in "Show me " && '[' !in "'s investment history"
  {
  }

  lemma LastFundingText26()
    ensures LastFundingPhrasings[26] == "When did [company] last receive funding?"
  {
  }

  lemma LastFundingCut26()
    ensures HasOnePlaceholder("When did [company] last receive funding?")
  {
    LastFundingJoin26();
    LastFundingSides26();
    CutGivesOnePlaceholder("When did [company] last receive funding?", "When did ", " last receive funding?");
  }

  lemma LastFundingJoin26()
    ensures "When did [company] last receive funding?" == "When did " + "[company]" + " last receive funding?"
  {
  }

  lemma LastFundingSides26()
    ensures '[' !in "When did " && '[' !in " last receive funding?"
  {
  }

  lemma LastFundingText27()
    ensures LastFundingPhrasings[27] == "What's [company]'s funding timeline?"
  {
  }

  lemma LastFundingCut27()
    ensures HasOnePlaceholder("What's [company]'s funding timeline?")
  {
    LastFundingJoin27();
    LastFundingSides27();
    CutGivesOnePlaceholder("What's [company]'s funding timeline?", "What's ", "'s funding timeline?");
  }

  lemma LastFundingJoin27()
    ensures "What's [company]'s funding timeline?" == "What's " + "[company]" + "'s funding timeline?"
  {
  }

  lemma LastFundingSides27()
    ensures '[' !in "What's " && '[' !in "'s funding timeline?"
  {
  }

  lemma LastFundingText28()
    ensures LastFundingPhrasings[28] == "Tell me about [company]'s capital raises"
  {
  }

  lemma LastFundingCut28()
    ensures HasOnePlaceholder("Tell me about [company]'s capital raises")
  {
    LastFundingJoin28();
    LastFundingSides28();
    CutGivesOnePlaceholder("Tell me about [company]'s capital raises", "Tell me about ", "'s capital raises");
  }

  lemma LastFundingJoin28()
    ensures "Tell me about [company]'s capital raises" == "Tell me about " + "[company]" + "'s capital raises"
  {
  }

  lemma LastFundingSides28()
    ensures '[' !in "Tell me about " && '[' !in "'s capital raises"
  {
  }

  lemma LastContactText0()
    ensures LastContactPhrasings[0] == "When was [company] last contacted?"
  {
  }

  lemma LastContactCut0()
    ensures HasOnePlaceholder("When was [company] last contacted?")
  {
    LastContactJoin0();
    LastContactSides0();
    CutGivesOnePlaceholder("When was [company] last contacted?", "When was ", " last contacted?");
  }

  lemma LastContactJoin0()
    ensures "When was [company] last contacted?" == "When was " + "[company]" + " last contacted?"
  {
  }

  lemma LastContactSides0()
    ensures '[' !in "When was " && '[' !in " last contacted?"
  {
  }

  lemma LastContactText1()
    ensures LastContactPhrasings[1] == "When did we last meet with [company]?"
  {
  }

  lemma LastContactCut1()
    ensures HasOnePlaceholder("When did we last meet with [company]?")
  {
    LastContactJoin1();
    LastContactSides1();
    CutGivesOnePlaceholder("When did we last meet with [company]?", "When did we last meet with ", "?");
  }

  lemma LastContactJoin1()
    ensures "When did we last meet with [company]?" == "When did we last meet with " + "[company]" + "?"
  {
  }

  lemma LastContactSides1()
    ensures '[' !in "When did we last meet with " && '[' !in "?"
  {
  }

  lemma LastContactText2()
    ensures LastContactPhrasings[2] == "What's the last contact date for [company]?"
  {
  }

  lemma LastContactCut2()
    ensures HasOnePlaceholder("What's the last contact date for [company]?")
  {
    LastContactJoin2();
    LastContactSides2();
    CutGivesOnePlaceholder("What's the last contact date for [company]?", "What's the last contact date for ", "?");
  }

  lemma LastContactJoin2()
    ensures "What's the last contact date for [company]?" == "What's the last contact date for " + "[company]" + "?"
  {
  }

  lemma LastContactSides2()
    ensures '[' !in "What's the last contact date for " && '[' !in "?"
  {
  }

  lemma LastContactText3()
    ensures LastContactPhrasings[3] == "When was the last meeting with [company]?"
  {
  }

  lemma LastContactCut3()
    ensures HasOnePlaceholder("When was the last meeting with [company]?")
  {
    LastContactJoin3();
    LastContactSides3();
    CutGivesOnePlaceholder("When was the last meeting with [company]?", "When was the last meeting with ", "?");
  }

  lemma LastContactJoin3()
    ensures "When was the last meeting with [company]?" == "When was the last meeting with " + "[company]" + "?"
  {
  }

  lemma LastContactSides3()
    ensures '[' !in "When was the last meeting with " && '[' !in "?"
  {
  }

  lemma LastContactText4()
    ensures LastContactPhrasings[4] == "Show me last contact with [company]"
  {
  }

  lemma LastContactCut4()
    ensures HasOnePlaceholder("Show me last contact with [company]")
  {
    LastContactJoin4();
    LastContactSides4();
    CutGivesOnePlaceholder("Show me last contact with [company]", "Show me last contact with ", "");
  }

  lemma LastContactJoin4()
    ensures "Show me last contact with [company]" == "Show me last contact with " + "[company]" + ""
  {
  }

  lemma LastContactSides4()
    ensures '[' !in "Show me last contact with " && '[' !in ""
  {
  }

  lemma LastContactText5()
    ensures LastContactPhrasings[5] == "When did we last talk to [company]?"
  {
  }

  lemma LastContactCut5()
    ensures HasOnePlaceholder("When did we last talk to [company]?")
  {
    LastContactJoin5();
    LastContactSides5();
    CutGivesOnePlaceholder("When did we last talk to [company]?", "When did we last talk to ", "?");
  }

  lemma LastContactJoin5()
    ensures "When did we last talk to [company]?" == "When did we last talk to " + "[company]" + "?"
  {
  }

  lemma LastContactSides5()
    ensures '[' !in "When did we last talk to " && '[' !in "?"
  {
  }

  lemma LastContactText6()
    ensures LastContactPhrasings[6] == "What's the most recent contact with [company]?"
  {
  }

  lemma LastContactCut6()
    ensures HasOnePlaceholder("What's the most recent contact with [company]?")
  {
    LastContactJoin6();
    LastContactSides6();
    CutGivesOnePlaceholder("What's the most recent contact with [company]?", "What's the most recent contact with ", "?");
  }

  lemma LastContactJoin6()
    ensures "What's the most recent contact with [company]?" == "What's the most recent contact with " + "[company]" + "?"
  {
  }

  lemma LastContactSides6()
    ensures '[' !in "What's the most recent contact with " && '[' !in "?"
  {
  }

  lemma LastContactText7()
    ensures LastContactPhrasings[7] == "When was [company] last contacted?"
  {
  }

  lemma LastContactCut7()
    ensures HasOnePlaceholder("When was [company] last contacted?")
  {
    LastContactJoin7();
    LastContactSides7();
    CutGivesOnePlaceholder("When was [company] last contacted?", "When was ", " last contacted?");
  }

  lemma LastContactJoin7()
    ensures "When was [company] last contacted?" == "When was " + "[company]" + " last contacted?"
  {
  }

  lemma LastContactSides7()
    ensures '[' !in "When was " && '[' !in " last contacted?"
  {
  }

  lemma LastContactText8()
    ensures LastContactPhrasings[8] == "Last contact with [company]"
  {
  }

  lemma LastContactCut8()
    ensures HasOnePlaceholder("Last contact with [company]")
  {
    LastContactJoin8();
    LastContactSides8();
    CutGivesOnePlaceholder("Last contact with [company]", "Last contact with ", "");
  }

  lemma LastContactJoin8()
    ensures "Last contact with [company]" == "Last contact with " + "[company]" + ""
  {
  }

  lemma LastContactSides8()
    ensures '[' !in "Last contact with " && '[' !in ""
  {
  }

  lemma LastContactText9()
    ensures LastContactPhrasings[9] == "When did we last contact [company]?"
  {
  }

  lemma LastContactCut9()
    ensures HasOnePlaceholder("When did we last contact [company]?")
  {
    LastContactJoin9();
    LastContactSides9();
    CutGivesOnePlaceholder("When did we last contact [company]?", "When did we last contact ", "?");
  }

  lemma LastContactJoin9()
    ensures "When did we last contact [company]?" == "When did we last contact " + "[company]" + "?"
  {
  }

  lemma LastContactSides9()
    ensures '[' !in "When did we last contact " && '[' !in "?"
  {
  }

  lemma LastContactText10()
    ensures LastContactPhrasings[10] == "Show me contact history for [company]"
  {
  }

  lemma LastContactCut10()
    ensures HasOnePlaceholder("Show me contact history for [company]")
  {
    LastContactJoin10();
    LastContactSides10();
    CutGivesOnePlaceholder("Show me contact history for [company]", "Show me contact history for ", "");
  }

  lemma LastContactJoin10()
    ensures "Show me contact history for [company]" == "Show me contact history for " + "[company]" + ""
  {
  }

  lemma LastContactSides10()
    ensures '[' !in "Show me contact history for " && '[' !in ""
  {
  }

  lemma LastContactText11()
    ensures LastContactPhrasings[11] == "Last meeting with [company]"
  {
  }

  lemma LastContactCut11()
    ensures HasOnePlaceholder("Last meeting with [company]")
  {
    LastContactJoin11();
    LastContactSides11();
    CutGivesOnePlaceholder("Last meeting with [company]", "Last meeting with ", "");
  }

  lemma LastContactJoin11()
    ensures "Last meeting with [company]" == "Last meeting with " + "[company]" + ""
  {
  }

  lemma LastContactSides11()
    ensures '[' !in "Last meeting with " && '[' !in ""
  {
  }

  lemma LastContactText12()
    ensures LastContactPhrasings[12] == "Contact date for [company]"
  {
  }

  lemma LastContactCut12()
    ensures HasOnePlaceholder("Contact date for [company]")
  {
    LastContactJoin12();
    LastContactSides12();
    CutGivesOnePlaceholder("Contact date for [company]", "Contact date for ", "");
  }

  lemma LastContactJoin12()
    ensures "Contact date for [company]" == "Contact date for " + "[company]" + ""
  {
  }

  lemma LastContactSides12()
    ensures '[' !in "Contact date for " && '[' !in ""
  {
  }

  lemma LastContactText13()
    ensures LastContactPhrasings[13] == "When did we last speak with [company]?"
  {
  }

  lemma LastContactCut13()
    ensures HasOnePlaceholder("When did we last speak with [company]?")
  {
    LastContactJoin13();
    LastContactSides13();
    CutGivesOnePlaceholder("When did we last speak with [company]?", "When did we last speak with ", "?");
  }

  lemma LastContactJoin13()
    ensures "When did we last speak with [company]?" == "When did we last speak with " + "[company]" + "?"
  {
  }

  lemma LastContactSides13()
    ensures '[' !in "When did we last speak with " && '[' !in "?"
  {
  }

  lemma LastContactText14()
    ensures LastContactPhrasings[14] == "What's the latest contact with [company]?"
  {
  }

  lemma LastContactCut14()
    ensures HasOnePlaceholder("What's the latest contact with [company]?")
  {
    LastContactJoin14();
    LastContactSides14();
    CutGivesOnePlaceholder("What's the latest contact with [company]?", "What's the latest contact with ", "?");
  }

  lemma LastContactJoin14()
    ensures "What's the latest contact with [company]?" == "What's the latest contact with " + "[company]" + "?"
  {
  }

  lemma LastContactSides14()
    ensures '[' !in "What's the latest contact with " && '[' !in "?"
  {
  }

  lemma LastContactText15()
    ensures LastContactPhrasings[15] == "Show me [company] contact history"
  {
  }

  lemma LastContactCut15()
    ensures HasOnePlaceholder("Show me [company] contact history")
  {
    LastContactJoin15();
    LastContactSides15();
    CutGivesOnePlaceholder("Show me [company] contact history", "Show me ", " contact history");
  }

  lemma LastContactJoin15()
    ensures "Show me [company] contact history" == "Show me " + "[company]" + " contact history"
  {
  }

  lemma LastContactSides15()
    ensures '[' !in "Show me " && '[' !in " contact history"
  {
  }

  lemma LastContactText16()
    ensures LastContactPhrasings[16] == "When was our last interaction with [company]?"
  {
  }

  lemma LastContactCut16()
    ensures HasOnePlaceholder("When was our last interaction with [company]?")
  {
    LastContactJoin16();
    LastContactSides16();
    CutGivesOnePlaceholder("When was our last interaction with [company]?", "When was our last interaction with ", "?");
  }

  lemma LastContactJoin16()
    ensures "When was our last interaction with [company]?" == "When was our last interaction with " + "[company]" + "?"
  {
  }

  lemma LastContactSides16()
    ensures '[' !in "When was our last interaction with " && '[' !in "?"
  {
  }

  lemma LastContactText17()
    ensures LastContactPhrasings[17] == "Tell me about [company] contact"
  {
  }

  lemma LastContactCut17()
    ensures HasOnePlaceholder("Tell me about [company] contact")
  {
    LastContactJoin17();
    LastContactSides17();
    CutGivesOnePlaceholder("Tell me about [company] contact", "Tell me about ", " contact");
  }

  lemma LastContactJoin17()
    ensures "Tell me about [company] contact" == "Tell me about " + "[company]" + " contact"
  {
  }

  lemma LastContactSides17()
    ensures '[' !in "Tell me about " && '[' !in " contact"
  {
  }

  lemma LastContactText18()
    ensures LastContactPhrasings[18] == "What's the last communication with [company]?"
  {
  }

  lemma LastContactCut18()
    ensures HasOnePlaceholder("What's the last communication with [company]?")
  {
    LastContactJoin18();
    LastContactSides18();
    CutGivesOnePlaceholder("What's the last communication with [company]?", "What's the last communication with ", "?");
  }

  lemma LastContactJoin18()
    ensures "What's the last communication with [company]?" == "What's the last communication with " + "[company]" + "?"
  {
  }

  lemma LastContactSides18()
    ensures '[' !in "What's the last communication with " && '[' !in "?"
  {
  }

  lemma LastContactText19()
    ensures LastContactPhrasings[19] == "When did we last reach out to [company]?"
  {
  }

  lemma LastContactCut19()
    ensures HasOnePlaceholder("When did we last reach out to [company]?")
  {
    LastContactJoin19();
    LastContactSides19();
    CutGivesOnePlaceholder("When did we last reach out to [company]?", "When did we last reach out to ", "?");
  }

  lemma LastContactJoin19()
    ensures "When did we last reach out to [company]?" == "When did we last reach out to " + "[company]" + "?"
  {
  }

  lemma LastContactSides19()
    ensures '[' !in "When did we last reach out to " && '[' !in "?"
  {
  }

  lemma LastContactText20()
    ensures LastContactPhrasings[20] == "Show me [company] interactions"
  {
  }

  lemma LastContactCut20()
    ensures HasOnePlaceholder("Show me [company] interactions")
  {
    LastContactJoin20();
    LastContactSides20();
    CutGivesOnePlaceholder("Show me [company] interactions", "Show me ", " interactions");
  }

  lemma LastContactJoin20()
    ensures "Show me [company] interactions" == "Show me " + "[company]" + " interactions"
  {
  }

  lemma LastContactSides20()
    ensures '[' !in "Show me " && '[' !in " interactions"
  {
  }

  lemma LastContactText21()
    ensures LastContactPhrasings[21] == "What's the most recent meeting with [company]?"
  {
  }

  lemma LastContactCut21()
    ensures HasOnePlaceholder("What's the most recent meeting with [company]?")
  {
    LastContactJoin21();
    LastContactSides21();
    CutGivesOnePlaceholder("What's the most recent meeting with [company]?", "What's the most recent meeting with ", "?");
  }

  lemma LastContactJoin21()
    ensures "What's the most recent meeting with [company]?" == "What's the most recent meeting with " + "[company]" + "?"
  {
  }

  lemma LastContactSides21()
    ensures '[' !in "What's the most recent meeting with " && '[' !in "?"
  {
  }

  lemma LastContactText22()
    ensures LastContactPhrasings[22] == "When was [company] last reached out to?"
  {
  }

  lemma LastContactCut22()
    ensures HasOnePlaceholder("When was [company] last reached out to?")
  {
    LastContactJoin22();
    LastContactSides22();
    CutGivesOnePlaceholder("When was [company] last reached out to?", "When was ", " last reached out to?");
  }

  lemma LastContactJoin22()
    ensures "When was [company] last reached out to?" == "When was " + "[company]" + " last reached out to?"
  {
  }

  lemma LastContactSides22()
    ensures '[' !in "When was " && '[' !in " last reached out to?"
  {
  }

  lemma LastContactText23()
    ensures LastContactPhrasings[23] == "Tell me about [company] communications"
  {
  }

  lemma LastContactCut23()
    ensures HasOnePlaceholder("Tell me about [company] communications")
  {
    LastContactJoin23();
    LastContactSides23();
    CutGivesOnePlaceholder("Tell me about [company] communications", "Tell me about ", " communications");
  }

  lemma LastContactJoin23()
    ensures "Tell me about [company] communications" == "Tell me about " + "[company]" + " communications"
  {
  }

  lemma LastContactSides23()
    ensures '[' !in "Tell me about " && '[' !in " communications"
  {
  }

  lemma LastContactText24()
    ensures LastContactPhrasings[24] == "What's the latest interaction with [company]?"
  {
  }

  lemma LastContactCut24()
    ensures HasOnePlaceholder("What's the latest interaction with [company]?")
  {
    LastContactJoin24();
    LastContactSides24();
    CutGivesOnePlaceholder("What's the latest interaction with [company]?", "What's the latest interaction with ", "?");
  }

  lemma LastContactJoin24()
    ensures "What's the latest interaction with [company]?" == "What's the latest interaction with " + "[company]" + "?"
  {
  }

  lemma LastContactSides24()
    ensures '[' !in "What's the latest interaction with " && '[' !in "?"
  {
  }

  lemma LastContactText25()
    ensures LastContactPhrasings[25] == "Show me [company] communication history"
  {
  }

  lemma LastContactCut25()
    ensures HasOnePlaceholder("Show me [company] communication history")
  {
    LastContactJoin25();
    LastContactSides25();
    CutGivesOnePlaceholder("Show me [company] communication history", "Show me ", " communication history");
  }

  lemma LastContactJoin25()
    ensures "Show me [company] communication history" == "Show me " + "[company]" + " communication history"
  {
  }

  lemma LastContactSides25()
    ensures '[' !in "Show me " && '[' !in " communication history"
  {
  }

  lemma LastContactText26()
    ensures LastContactPhrasings[26] == "When did we last connect with [company]?"
  {
  }

  lemma LastContactCut26()
    ensures HasOnePlaceholder("When did we last connect with [company]?")
  {
    LastContactJoin26();
    LastContactSides26();
    CutGivesOnePlaceholder("When did we last connect with [company]?", "When did we last connect with ", "?");
  }

  lemma LastContactJoin26()
    ensures "When did we last connect with [company]?" == "When did we last connect with " + "[company]" + "?"
  {
  }

  lemma LastContactSides26()
    ensures '[' !in "When did we last connect with " && '[' !in "?"
  {
  }

  lemma LastContactText27()
    ensures LastContactPhrasings[27] == "What's [company]'s contact timeline?"
  {
  }

  lemma LastContactCut27()
    ensures HasOnePlaceholder("What's [company]'s contact timeline?")
  {
    LastContactJoin27();
    LastContactSides27();
    CutGivesOnePlaceholder("What's [company]'s contact timeline?", "What's ", "'s contact timeline?");
  }

  lemma LastContactJoin27()
    ensures "What's [company]'s contact timeline?" == "What's " + "[company]" + "'s contact timeline?"
  {
  }

  lemma LastContactSides27()
    ensures '[' !in "What's " && '[' !in "'s contact timeline?"
  {
  }

  lemma LastContactText28()
    ensures LastContactPhrasings[28] == "Tell me about [company]'s recent contacts"
  {
  }

  lemma LastContactCut28()
    ensures HasOnePlaceholder("Tell me about [company]'s recent contacts")
  {
    LastContactJoin28();
    LastContactSides28();
    CutGivesOnePlaceholder("Tell me about [company]'s recent contacts", "Tell me about ", "'s recent contacts");
  }

  lemma LastContactJoin28()
    ensures "Tell me about [company]'s recent contacts" == "Tell me about " + "[company]" + "'s recent contacts"
  {
  }

  lemma LastContactSides28()
    ensures '[' !in "Tell me about " && '[' !in "'s recent contacts"
  {
  }

  lemma LastContactText29()
    ensures LastContactPhrasings[29] == "When was [company] last touched base with?"
  {
  }

  lemma LastContactCut29()
    ensures HasOnePlaceholder("When was [company] last touched base with?")
  {
    LastContactJoin29();
    LastContactSides29();
    CutGivesOnePlaceholder("When was [company] last touched base with?", "When was ", " last touched base with?");
  }

  lemma LastContactJoin29()
    ensures "When was [company] last touched base with?" == "When was " + "[company]" + " last touched base with?"
  {
  }

  lemma LastContactSides29()
    ensures '[' !in "When was " && '[' !in " last touched base with?"
  {
  }

  /** Every phrasing of the flattened bank holds the placeholder exactly once. */
  lemma EveryTemplateHasOnePlaceholder()
    ensures forall t :: t in AllTemplates() ==> HasOnePlaceholder(t)
  {
    AllTemplatesInTableOrder();
    forall t | t in AllTemplates() ensures HasOnePlaceholder(t) {
      var i :| 0 <= i < |AllTemplates()| && AllTemplates()[i] == t;
      if i < 30 {
        CheckStatusHasOnePlaceholder(i);
      } else if i < 59 {
        LastFundingHasOnePlaceholder(i - 30);
      } else {
        LastContactHasOnePlaceholder(i - 59);
      }
    }
  }
}