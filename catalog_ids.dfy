/**
 * The ids of the two default category catalogs of `src/types/expense.ts`, one constant per entry.
 * Their shape is proved one small step at a time: each id is split at its last dash by its own
 * lemma, and the generic `SplitIntoFiveGroups` composes the four splits, so no proof compares
 * more than one literal.
 */
module CatalogIds {
  import opened Seqs
  import opened Uuid

  const EXPENSE_0_ID: string := "7f742d0c-4c84-4580-99b8-045f40986a39"
  const EXPENSE_1_ID: string := "cc39552f-f007-4745-9d0f-5c716a6bfb52"
  const EXPENSE_2_ID: string := "6b077f89-b9f0-4b54-b4fe-508c9ea254eb"
  const EXPENSE_3_ID: string := "9efa556d-827d-452a-b525-ed7d2ea29e26"
  const EXPENSE_4_ID: string := "70171412-adc9-4214-90b9-18b9d621e267"
  const EXPENSE_5_ID: string := "5c716a6b-f007-4745-9d0f-cc39552fbf52"
  const EXPENSE_6_ID: string := "4c84-4580-99b8-045f40986a39-7f742d0c"
  const EXPENSE_7_ID: string := "b9f0-4b54-b4fe-508c9ea254eb-6b077f89"
  const EXPENSE_8_ID: string := "827d-452a-b525-ed7d2ea29e26-9efa556d"
  const EXPENSE_9_ID: string := "adc9-4214-90b9-18b9d621e267-70171412"
  const EXPENSE_10_ID: string := "f007-4745-9d0f-5c716a6bfb52-cc39552f"
  const EXPENSE_11_ID: string := "4580-99b8-045f40986a39-7f742d0c-4c84"
  const EXPENSE_12_ID: string := "4b54-b4fe-508c9ea254eb-6b077f89-b9f0"
  const EXPENSE_13_ID: string := "452a-b525-ed7d2ea29e26-9efa556d-827d"
  const EXPENSE_14_ID: string := "4214-90b9-18b9d621e267-70171412-adc9"
  const EXPENSE_15_ID: string := "4745-9d0f-5c716a6bfb52-cc39552f-f007"
  const EXPENSE_16_ID: string := "99b8-045f40986a39-7f742d0c-4c84-4580"
  const EXPENSE_17_ID: string := "b4fe-508c9ea254eb-6b077f89-b9f0-4b54"
  const EXPENSE_18_ID: string := "b525-ed7d2ea29e26-9efa556d-827d-452a"
  const INCOME_0_ID: string := "90b9-18b9d621e267-70171412-adc9-4214"
  const INCOME_1_ID: string := "9d0f-5c716a6bfb52-cc39552f-f007-4745"
  const INCOME_2_ID: string := "045f40986a39-7f742d0c-4c84-4580-99b8"
  const INCOME_3_ID: string := "508c9ea254eb-6b077f89-b9f0-4b54-b4fe"
  const INCOME_4_ID: string := "ed7d2ea29e26-9efa556d-827d-452a-b525"
  const INCOME_5_ID: string := "18b9d621e267-70171412-adc9-4214-90b9"
  const INCOME_6_ID: string := "5c716a6bfb52-cc39552f-f007-4745-9d0f"
  const INCOME_7_ID: string := "7f742d0c-4c84-4580-99b8-045f40986a39"
  const INCOME_8_ID: string := "6b077f89-b9f0-4b54-b4fe-508c9ea254eb"
  const INCOME_9_ID: string := "9efa556d-827d-452a-b525-ed7d2ea29e26"
  const INCOME_10_ID: string := "70171412-adc9-4214-90b9-18b9d621e267"
  const INCOME_11_ID: string := "cc39552f-f007-4745-9d0f-5c716a6bfb52"
  const INCOME_12_ID: string := "b1e2c3a4-1234-5678-9abc-def012345678"
  const INCOME_13_ID: string := "c2f3d4b5-2345-6789-abcd-ef0123456789"
  const INCOME_14_ID: string := "d3a4e5c6-3456-789a-bcde-f0123456789a"

  // Each id is split at its last dash four times, one split per lemma so that each literal comparison
  // stays small; the pieces are the five dash-free groups.

  lemma ExpenseId0Splits()
    ensures EXPENSE_0_ID == Join("7f742d0c-4c84-4580-99b8", "045f40986a39")
  {
  }

  lemma ExpenseId0Splits1()
    ensures "7f742d0c-4c84-4580-99b8" == Join("7f742d0c-4c84-4580", "99b8")
  {
  }

  lemma ExpenseId0Splits2()
    ensures "7f742d0c-4c84-4580" == Join("7f742d0c-4c84", "4580")
  {
  }

  lemma ExpenseId0Splits3()
    ensures "7f742d0c-4c84" == Join("7f742d0c", "4c84")
  {
  }

  lemma ExpenseId0Groups()
    ensures FiveGroups(EXPENSE_0_ID)
  {
    ExpenseId0Splits();
    ExpenseId0Splits1();
    ExpenseId0Splits2();
    ExpenseId0Splits3();
    SplitIntoFiveGroups(EXPENSE_0_ID, "7f742d0c-4c84-4580-99b8", "7f742d0c-4c84-4580", "7f742d0c-4c84", "7f742d0c", "4c84", "4580", "99b8", "045f40986a39");
  }

  lemma ExpenseId1Splits()
    ensures EXPENSE_1_ID == Join("cc39552f-f007-4745-9d0f", "5c716a6bfb52")
  {
  }

  lemma ExpenseId1Splits1()
    ensures "cc39552f-f007-4745-9d0f" == Join("cc39552f-f007-4745", "9d0f")
  {
  }

  lemma ExpenseId1Splits2()
    ensures "cc39552f-f007-4745" == Join("cc39552f-f007", "4745")
  {
  }

  lemma ExpenseId1Splits3()
    ensures "cc39552f-f007" == Join("cc39552f", "f007")
  {
  }

  lemma ExpenseId1Groups()
    ensures FiveGroups(EXPENSE_1_ID)
  {
    ExpenseId1Splits();
    ExpenseId1Splits1();
    ExpenseId1Splits2();
    ExpenseId1Splits3();
    SplitIntoFiveGroups(EXPENSE_1_ID, "cc39552f-f007-4745-9d0f", "cc39552f-f007-4745", "cc39552f-f007", "cc39552f", "f007", "4745", "9d0f", "5c716a6bfb52");
  }

  lemma ExpenseId2Splits()
    ensures EXPENSE_2_ID == Join("6b077f89-b9f0-4b54-b4fe", "508c9ea254eb")
  {
  }

  lemma ExpenseId2Splits1()
    ensures "6b077f89-b9f0-4b54-b4fe" == Join("6b077f89-b9f0-4b54", "b4fe")
  {
  }

  lemma ExpenseId2Splits2()
    ensures "6b077f89-b9f0-4b54" == Join("6b077f89-b9f0", "4b54")
  {
  }

  lemma ExpenseId2Splits3()
    ensures "6b077f89-b9f0" == Join("6b077f89", "b9f0")
  {
  }

  lemma ExpenseId2Groups()
    ensures FiveGroups(EXPENSE_2_ID)
  {
    ExpenseId2Splits();
    ExpenseId2Splits1();
    ExpenseId2Splits2();
    ExpenseId2Splits3();
    SplitIntoFiveGroups(EXPENSE_2_ID, "6b077f89-b9f0-4b54-b4fe", "6b077f89-b9f0-4b54", "6b077f89-b9f0", "6b077f89", "b9f0", "4b54", "b4fe", "508c9ea254eb");
  }

  lemma ExpenseId3Splits()
    ensures EXPENSE_3_ID == Join("9efa556d-827d-452a-b525", "ed7d2ea29e26")
  {
  }

  lemma ExpenseId3Splits1()
    ensures "9efa556d-827d-452a-b525" == Join("9efa556d-827d-452a", "b525")
  {
  }

  lemma ExpenseId3Splits2()
    ensures "9efa556d-827d-452a" == Join("9efa556d-827d", "452a")
  {
  }

  lemma ExpenseId3Splits3()
    ensures "9efa556d-827d" == Join("9efa556d", "827d")
  {
  }

  lemma ExpenseId3Groups()
    ensures FiveGroups(EXPENSE_3_ID)
  {
    ExpenseId3Splits();
    ExpenseId3Splits1();
    ExpenseId3Splits2();
    ExpenseId3Splits3();
    SplitIntoFiveGroups(EXPENSE_3_ID, "9efa556d-827d-452a-b525", "9efa556d-827d-452a", "9efa556d-827d", "9efa556d", "827d", "452a", "b525", "ed7d2ea29e26");
  }

  lemma ExpenseId4Splits()
    ensures EXPENSE_4_ID == Join("70171412-adc9-4214-90b9", "18b9d621e267")
  {
  }

  lemma ExpenseId4Splits1()
    ensures "70171412-adc9-4214-90b9" == Join("70171412-adc9-4214", "90b9")
  {
  }

  lemma ExpenseId4Splits2()
    ensures "70171412-adc9-4214" == Join("70171412-adc9", "4214")
  {
  }

  lemma ExpenseId4Splits3()
    ensures "70171412-adc9" == Join("70171412", "adc9")
  {
  }

  lemma ExpenseId4Groups()
    ensures FiveGroups(EXPENSE_4_ID)
  {
    ExpenseId4Splits();
    ExpenseId4Splits1();
    ExpenseId4Splits2();
    ExpenseId4Splits3();
    SplitIntoFiveGroups(EXPENSE_4_ID, "70171412-adc9-4214-90b9", "70171412-adc9-4214", "70171412-adc9", "70171412", "adc9", "4214", "90b9", "18b9d621e267");
  }

  lemma ExpenseId5Splits()
    ensures EXPENSE_5_ID == Join("5c716a6b-f007-4745-9d0f", "cc39552fbf52")
  {
  }

  lemma ExpenseId5Splits1()
    ensures "5c716a6b-f007-4745-9d0f" == Join("5c716a6b-f007-4745", "9d0f")
  {
  }

  lemma ExpenseId5Splits2()
    ensures "5c716a6b-f007-4745" == Join("5c716a6b-f007", "4745")
  {
  }

  lemma ExpenseId5Splits3()
    ensures "5c716a6b-f007" == Join("5c716a6b", "f007")
  {
  }

  lemma ExpenseId5Groups()
    ensures FiveGroups(EXPENSE_5_ID)
  {
    ExpenseId5Splits();
    ExpenseId5Splits1();
    ExpenseId5Splits2();
    ExpenseId5Splits3();
    SplitIntoFiveGroups(EXPENSE_5_ID, "5c716a6b-f007-4745-9d0f", "5c716a6b-f007-4745", "5c716a6b-f007", "5c716a6b", "f007", "4745", "9d0f", "cc39552fbf52");
  }

  lemma ExpenseId6Splits()
    ensures EXPENSE_6_ID == Join("4c84-4580-99b8-045f40986a39", "7f742d0c")
  {
  }

  lemma ExpenseId6Splits1()
    ensures "4c84-4580-99b8-045f40986a39" == Join("4c84-4580-99b8", "045f40986a39")
  {
  }

  lemma ExpenseId6Splits2()
    ensures "4c84-4580-99b8" == Join("4c84-4580", "99b8")
  {
  }

  lemma ExpenseId6Splits3()
    ensures "4c84-4580" == Join("4c84", "4580")
  {
  }

  lemma ExpenseId6Groups()
    ensures FiveGroups(EXPENSE_6_ID)
  {
    ExpenseId6Splits();
    ExpenseId6Splits1();
    ExpenseId6Splits2();
    ExpenseId6Splits3();
    SplitIntoFiveGroups(EXPENSE_6_ID, "4c84-4580-99b8-045f40986a39", "4c84-4580-99b8", "4c84-4580", "4c84", "4580", "99b8", "045f40986a39", "7f742d0c");
  }

  lemma ExpenseId7Splits()
    ensures EXPENSE_7_ID == Join("b9f0-4b54-b4fe-508c9ea254eb", "6b077f89")
  {
  }

  lemma ExpenseId7Splits1()
    ensures "b9f0-4b54-b4fe-508c9ea254eb" == Join("b9f0-4b54-b4fe", "508c9ea254eb")
  {
  }

  lemma ExpenseId7Splits2()
    ensures "b9f0-4b54-b4fe" == Join("b9f0-4b54", "b4fe")
  {
  }

  lemma ExpenseId7Splits3()
    ensures "b9f0-4b54" == Join("b9f0", "4b54")
  {
  }

  lemma ExpenseId7Groups()
    ensures FiveGroups(EXPENSE_7_ID)
  {
    ExpenseId7Splits();
    ExpenseId7Splits1();
    ExpenseId7Splits2();
    ExpenseId7Splits3();
    SplitIntoFiveGroups(EXPENSE_7_ID, "b9f0-4b54-b4fe-508c9ea254eb", "b9f0-4b54-b4fe", "b9f0-4b54", "b9f0", "4b54", "b4fe", "508c9ea254eb", "6b077f89");
  }

  lemma ExpenseId8Splits()
    ensures EXPENSE_8_ID == Join("827d-452a-b525-ed7d2ea29e26", "9efa556d")
  {
  }

  lemma ExpenseId8Splits1()
    ensures "827d-452a-b525-ed7d2ea29e26" == Join("827d-452a-b525", "ed7d2ea29e26")
  {
  }

  lemma ExpenseId8Splits2()
    ensures "827d-452a-b525" == Join("827d-452a", "b525")
  {
  }

  lemma ExpenseId8Splits3()
    ensures "827d-452a" == Join("827d", "452a")
  {
  }

  lemma ExpenseId8Groups()
    ensures FiveGroups(EXPENSE_8_ID)
  {
    ExpenseId8Splits();
    ExpenseId8Splits1();
    ExpenseId8Splits2();
    ExpenseId8Splits3();
    SplitIntoFiveGroups(EXPENSE_8_ID, "827d-452a-b525-ed7d2ea29e26", "827d-452a-b525", "827d-452a", "827d", "452a", "b525", "ed7d2ea29e26", "9efa556d");
  }

  lemma ExpenseId9Splits()
    ensures EXPENSE_9_ID == Join("adc9-4214-90b9-18b9d621e267", "70171412")
  {
  }

  lemma ExpenseId9Splits1()
    ensures "adc9-4214-90b9-18b9d621e267" == Join("adc9-4214-90b9", "18b9d621e267")
  {
  }

  lemma ExpenseId9Splits2()
    ensures "adc9-4214-90b9" == Join("adc9-4214", "90b9")
  {
  }

  lemma ExpenseId9Splits3()
    ensures "adc9-4214" == Join("adc9", "4214")
  {
  }

  lemma ExpenseId9Groups()
    ensures FiveGroups(EXPENSE_9_ID)
  {
    ExpenseId9Splits();
    ExpenseId9Splits1();
    ExpenseId9Splits2();
    ExpenseId9Splits3();
    SplitIntoFiveGroups(EXPENSE_9_ID, "adc9-4214-90b9-18b9d621e267", "adc9-4214-90b9", "adc9-4214", "adc9", "4214", "90b9", "18b9d621e267", "70171412");
  }

  lemma ExpenseId10Splits()
    ensures EXPENSE_10_ID == Join("f007-4745-9d0f-5c716a6bfb52", "cc39552f")
  {
  }

  lemma ExpenseId10Splits1()
    ensures "f007-4745-9d0f-5c716a6bfb52" == Join("f007-4745-9d0f", "5c716a6bfb52")
  {
  }

  lemma ExpenseId10Splits2()
    ensures "f007-4745-9d0f" == Join("f007-4745", "9d0f")
  {
  }

  lemma ExpenseId10Splits3()
    ensures "f007-4745" == Join("f007", "4745")
  {
  }

  lemma ExpenseId10Groups()
    ensures FiveGroups(EXPENSE_10_ID)
  {
    ExpenseId10Splits();
    ExpenseId10Splits1();
    ExpenseId10Splits2();
    ExpenseId10Splits3();
    SplitIntoFiveGroups(EXPENSE_10_ID, "f007-4745-9d0f-5c716a6bfb52", "f007-4745-9d0f", "f007-4745", "f007", "4745", "9d0f", "5c716a6bfb52", "cc39552f");
  }

  lemma ExpenseId11Splits()
    ensures EXPENSE_11_ID == Join("4580-99b8-045f40986a39-7f742d0c", "4c84")
  {
  }

  lemma ExpenseId11Splits1()
    ensures "4580-99b8-045f40986a39-7f742d0c" == Join("4580-99b8-045f40986a39", "7f742d0c")
  {
  }

  lemma ExpenseId11Splits2()
    ensures "4580-99b8-045f40986a39" == Join("4580-99b8", "045f40986a39")
  {
  }

  lemma ExpenseId11Splits3()
    ensures "4580-99b8" == Join("4580", "99b8")
  {
  }

  lemma ExpenseId11Groups()
    ensures FiveGroups(EXPENSE_11_ID)
  {
    ExpenseId11Splits();
    ExpenseId11Splits1();
    ExpenseId11Splits2();
    ExpenseId11Splits3();
    SplitIntoFiveGroups(EXPENSE_11_ID, "4580-99b8-045f40986a39-7f742d0c", "4580-99b8-045f40986a39", "4580-99b8", "4580", "99b8", "045f40986a39", "7f742d0c", "4c84");
  }

  lemma ExpenseId12Splits()
    ensures EXPENSE_12_ID == Join("4b54-b4fe-508c9ea254eb-6b077f89", "b9f0")
  {
  }

  lemma ExpenseId12Splits1()
    ensures "4b54-b4fe-508c9ea254eb-6b077f89" == Join("4b54-b4fe-508c9ea254eb", "6b077f89")
  {
  }

  lemma ExpenseId12Splits2()
    ensures "4b54-b4fe-508c9ea254eb" == Join("4b54-b4fe", "508c9ea254eb")
  {
  }

  lemma ExpenseId12Splits3()
    ensures "4b54-b4fe" == Join("4b54", "b4fe")
  {
  }

  lemma ExpenseId12Groups()
    ensures FiveGroups(EXPENSE_12_ID)
  {
    ExpenseId12Splits();
    ExpenseId12Splits1();
    ExpenseId12Splits2();
    ExpenseId12Splits3();
    SplitIntoFiveGroups(EXPENSE_12_ID, "4b54-b4fe-508c9ea254eb-6b077f89", "4b54-b4fe-508c9ea254eb", "4b54-b4fe", "4b54", "b4fe", "508c9ea254eb", "6b077f89", "b9f0");
  }

  lemma ExpenseId13Splits()
    ensures EXPENSE_13_ID == Join("452a-b525-ed7d2ea29e26-9efa556d", "827d")
  {
  }

  lemma ExpenseId13Splits1()
    ensures "452a-b525-ed7d2ea29e26-9efa556d" == Join("452a-b525-ed7d2ea29e26", "9efa556d")
  {
  }

  lemma ExpenseId13Splits2()
    ensures "452a-b525-ed7d2ea29e26" == Join("452a-b525", "ed7d2ea29e26")
  {
  }

  lemma ExpenseId13Splits3()
    ensures "452a-b525" == Join("452a", "b525")
  {
  }

  lemma ExpenseId13Groups()
    ensures FiveGroups(EXPENSE_13_ID)
  {
    ExpenseId13Splits();
    ExpenseId13Splits1();
    ExpenseId13Splits2();
    ExpenseId13Splits3();
    SplitIntoFiveGroups(EXPENSE_13_ID, "452a-b525-ed7d2ea29e26-9efa556d", "452a-b525-ed7d2ea29e26", "452a-b525", "452a", "b525", "ed7d2ea29e26", "9efa556d", "827d");
  }

  lemma ExpenseId14Splits()
    ensures EXPENSE_14_ID == Join("4214-90b9-18b9d621e267-70171412", "adc9")
  {
  }

  lemma ExpenseId14Splits1()
    ensures "4214-90b9-18b9d621e267-70171412" == Join("4214-90b9-18b9d621e267", "70171412")
  {
  }

  lemma ExpenseId14Splits2()
    ensures "4214-90b9-18b9d621e267" == Join("4214-90b9", "18b9d621e267")
  {
  }

  lemma ExpenseId14Splits3()
    ensures "4214-90b9" == Join("4214", "90b9")
  {
  }

  lemma ExpenseId14Groups()
    ensures FiveGroups(EXPENSE_14_ID)
  {
    ExpenseId14Splits();
    ExpenseId14Splits1();
    ExpenseId14Splits2();
    ExpenseId14Splits3();
    SplitIntoFiveGroups(EXPENSE_14_ID, "4214-90b9-18b9d621e267-70171412", "4214-90b9-18b9d621e267", "4214-90b9", "4214", "90b9", "18b9d621e267", "70171412", "adc9");
  }

  lemma ExpenseId15Splits()
    ensures EXPENSE_15_ID == Join("4745-9d0f-5c716a6bfb52-cc39552f", "f007")
  {
  }

  lemma ExpenseId15Splits1()
    ensures "4745-9d0f-5c716a6bfb52-cc39552f" == Join("4745-9d0f-5c716a6bfb52", "cc39552f")
  {
  }

  lemma ExpenseId15Splits2()
    ensures "4745-9d0f-5c716a6bfb52" == Join("4745-9d0f", "5c716a6bfb52")
  {
  }

  lemma ExpenseId15Splits3()
    ensures "4745-9d0f" == Join("4745", "9d0f")
  {
  }

  lemma ExpenseId15Groups()
    ensures FiveGroups(EXPENSE_15_ID)
  {
    ExpenseId15Splits();
    ExpenseId15Splits1();
    ExpenseId15Splits2();
    ExpenseId15Splits3();
    SplitIntoFiveGroups(EXPENSE_15_ID, "4745-9d0f-5c716a6bfb52-cc39552f", "4745-9d0f-5c716a6bfb52", "4745-9d0f", "4745", "9d0f", "5c716a6bfb52", "cc39552f", "f007");
  }

  lemma ExpenseId16Splits()
    ensures EXPENSE_16_ID == Join("99b8-045f40986a39-7f742d0c-4c84", "4580")
  {
  }

  lemma ExpenseId16Splits1()
    ensures "99b8-045f40986a39-7f742d0c-4c84" == Join("99b8-045f40986a39-7f742d0c", "4c84")
  {
  }

  lemma ExpenseId16Splits2()
    ensures "99b8-045f40986a39-7f742d0c" == Join("99b8-045f40986a39", "7f742d0c")
  {
  }

  lemma ExpenseId16Splits3()
    ensures "99b8-045f40986a39" == Join("99b8", "045f40986a39")
  {
  }

  lemma ExpenseId16Groups()
    ensures FiveGroups(EXPENSE_16_ID)
  {
    ExpenseId16Splits();
    ExpenseId16Splits1();
    ExpenseId16Splits2();
    ExpenseId16Splits3();
    SplitIntoFiveGroups(EXPENSE_16_ID, "99b8-045f40986a39-7f742d0c-4c84", "99b8-045f40986a39-7f742d0c", "99b8-045f40986a39", "99b8", "045f40986a39", "7f742d0c", "4c84", "4580");
  }

  lemma ExpenseId17Splits()
    ensures EXPENSE_17_ID == Join("b4fe-508c9ea254eb-6b077f89-b9f0", "4b54")
  {
  }

  lemma ExpenseId17Splits1()
    ensures "b4fe-508c9ea254eb-6b077f89-b9f0" == Join("b4fe-508c9ea254eb-6b077f89", "b9f0")
  {
  }

  lemma ExpenseId17Splits2()
    ensures "b4fe-508c9ea254eb-6b077f89" == Join("b4fe-508c9ea254eb", "6b077f89")
  {
  }

  lemma ExpenseId17Splits3()
    ensures "b4fe-508c9ea254eb" == Join("b4fe", "508c9ea254eb")
  {
  }

  lemma ExpenseId17Groups()
    ensures FiveGroups(EXPENSE_17_ID)
  {
    ExpenseId17Splits();
    ExpenseId17Splits1();
    ExpenseId17Splits2();
    ExpenseId17Splits3();
    SplitIntoFiveGroups(EXPENSE_17_ID, "b4fe-508c9ea254eb-6b077f89-b9f0", "b4fe-508c9ea254eb-6b077f89", "b4fe-508c9ea254eb", "b4fe", "508c9ea254eb", "6b077f89", "b9f0", "4b54");
  }

  lemma ExpenseId18Splits()
    ensures EXPENSE_18_ID == Join("b525-ed7d2ea29e26-9efa556d-827d", "452a")
  {
  }

  lemma ExpenseId18Splits1()
    ensures "b525-ed7d2ea29e26-9efa556d-827d" == Join("b525-ed7d2ea29e26-9efa556d", "827d")
  {
  }

  lemma ExpenseId18Splits2()
    ensures "b525-ed7d2ea29e26-9efa556d" == Join("b525-ed7d2ea29e26", "9efa556d")
  {
  }

  lemma ExpenseId18Splits3()
    ensures "b525-ed7d2ea29e26" == Join("b525", "ed7d2ea29e26")
  {
  }

  lemma ExpenseId18Groups()
    ensures FiveGroups(EXPENSE_18_ID)
  {
    ExpenseId18Splits();
    ExpenseId18Splits1();
    ExpenseId18Splits2();
    ExpenseId18Splits3();
    SplitIntoFiveGroups(EXPENSE_18_ID, "b525-ed7d2ea29e26-9efa556d-827d", "b525-ed7d2ea29e26-9efa556d", "b525-ed7d2ea29e26", "b525", "ed7d2ea29e26", "9efa556d", "827d", "452a");
  }

  lemma IncomeId0Splits()
    ensures INCOME_0_ID == Join("90b9-18b9d621e267-70171412-adc9", "4214")
  {
  }

  lemma IncomeId0Splits1()
    ensures "90b9-18b9d621e267-70171412-adc9" == Join("90b9-18b9d621e267-70171412", "adc9")
  {
  }

  lemma IncomeId0Splits2()
    ensures "90b9-18b9d621e267-70171412" == Join("90b9-18b9d621e267", "70171412")
  {
  }

  lemma IncomeId0Splits3()
    ensures "90b9-18b9d621e267" == Join("90b9", "18b9d621e267")
  {
  }

  lemma IncomeId0Groups()
    ensures FiveGroups(INCOME_0_ID)
  {
    IncomeId0Splits();
    IncomeId0Splits1();
    IncomeId0Splits2();
    IncomeId0Splits3();
    SplitIntoFiveGroups(INCOME_0_ID, "90b9-18b9d621e267-70171412-adc9", "90b9-18b9d621e267-70171412", "90b9-18b9d621e267", "90b9", "18b9d621e267", "70171412", "adc9", "4214");
  }

  lemma IncomeId1Splits()
    ensures INCOME_1_ID == Join("9d0f-5c716a6bfb52-cc39552f-f007", "4745")
  {
  }

  lemma IncomeId1Splits1()
    ensures "9d0f-5c716a6bfb52-cc39552f-f007" == Join("9d0f-5c716a6bfb52-cc39552f", "f007")
  {
  }

  lemma IncomeId1Splits2()
    ensures "9d0f-5c716a6bfb52-cc39552f" == Join("9d0f-5c716a6bfb52", "cc39552f")
  {
  }

  lemma IncomeId1Splits3()
    ensures "9d0f-5c716a6bfb52" == Join("9d0f", "5c716a6bfb52")
  {
  }

  lemma IncomeId1Groups()
    ensures FiveGroups(INCOME_1_ID)
  {
    IncomeId1Splits();
    IncomeId1Splits1();
    IncomeId1Splits2();
    IncomeId1Splits3();
    SplitIntoFiveGroups(INCOME_1_ID, "9d0f-5c716a6bfb52-cc39552f-f007", "9d0f-5c716a6bfb52-cc39552f", "9d0f-5c716a6bfb52", "9d0f", "5c716a6bfb52", "cc39552f", "f007", "4745");
  }

  lemma IncomeId2Splits()
    ensures INCOME_2_ID == Join("045f40986a39-7f742d0c-4c84-4580", "99b8")
  {
  }

  lemma IncomeId2Splits1()
    ensures "045f40986a39-7f742d0c-4c84-4580" == Join("045f40986a39-7f742d0c-4c84", "4580")
  {
  }

  lemma IncomeId2Splits2()
    ensures "045f40986a39-7f742d0c-4c84" == Join("045f40986a39-7f742d0c", "4c84")
  {
  }

  lemma IncomeId2Splits3()
    ensures "045f40986a39-7f742d0c" == Join("045f40986a39", "7f742d0c")
  {
  }

  lemma IncomeId2Groups()
    ensures FiveGroups(INCOME_2_ID)
  {
    IncomeId2Splits();
    IncomeId2Splits1();
    IncomeId2Splits2();
    IncomeId2Splits3();
    SplitIntoFiveGroups(INCOME_2_ID, "045f40986a39-7f742d0c-4c84-4580", "045f40986a39-7f742d0c-4c84", "045f40986a39-7f742d0c", "045f40986a39", "7f742d0c", "4c84", "4580", "99b8");
  }

  lemma IncomeId3Splits()
    ensures INCOME_3_ID == Join("508c9ea254eb-6b077f89-b9f0-4b54", "b4fe")
  {
  }

  lemma IncomeId3Splits1()
    ensures "508c9ea254eb-6b077f89-b9f0-4b54" == Join("508c9ea254eb-6b077f89-b9f0", "4b54")
  {
  }

  lemma IncomeId3Splits2()
    ensures "508c9ea254eb-6b077f89-b9f0" == Join("508c9ea254eb-6b077f89", "b9f0")
  {
  }

  lemma IncomeId3Splits3()
    ensures "508c9ea254eb-6b077f89" == Join("508c9ea254eb", "6b077f89")
  {
  }

  lemma IncomeId3Groups()
    ensures FiveGroups(INCOME_3_ID)
  {
    IncomeId3Splits();
    IncomeId3Splits1();
    IncomeId3Splits2();
    IncomeId3Splits3();
    SplitIntoFiveGroups(INCOME_3_ID, "508c9ea254eb-6b077f89-b9f0-4b54", "508c9ea254eb-6b077f89-b9f0", "508c9ea254eb-6b077f89", "508c9ea254eb", "6b077f89", "b9f0", "4b54", "b4fe");
  }

  lemma IncomeId4Splits()
    ensures INCOME_4_ID == Join("ed7d2ea29e26-9efa556d-827d-452a", "b525")
  {
  }

  lemma IncomeId4Splits1()
    ensures "ed7d2ea29e26-9efa556d-827d-452a" == Join("ed7d2ea29e26-9efa556d-827d", "452a")
  {
  }

  lemma IncomeId4Splits2()
    ensures "ed7d2ea29e26-9efa556d-827d" == Join("ed7d2ea29e26-9efa556d", "827d")
  {
  }

  lemma IncomeId4Splits3()
    ensures "ed7d2ea29e26-9efa556d" == Join("ed7d2ea29e26", "9efa556d")
  {
  }

  lemma IncomeId4Groups()
    ensures FiveGroups(INCOME_4_ID)
  {
    IncomeId4Splits();
    IncomeId4Splits1();
    IncomeId4Splits2();
    IncomeId4Splits3();
    SplitIntoFiveGroups(INCOME_4_ID, "ed7d2ea29e26-9efa556d-827d-452a", "ed7d2ea29e26-9efa556d-827d", "ed7d2ea29e26-9efa556d", "ed7d2ea29e26", "9efa556d", "827d", "452a", "b525");
  }

  lemma IncomeId5Splits()
    ensures INCOME_5_ID == Join("18b9d621e267-70171412-adc9-4214", "90b9")
  {
  }

  lemma IncomeId5Splits1()
    ensures "18b9d621e267-70171412-adc9-4214" == Join("18b9d621e267-70171412-adc9", "4214")
  {
  }

  lemma IncomeId5Splits2()
    ensures "18b9d621e267-70171412-adc9" == Join("18b9d621e267-70171412", "adc9")
  {
  }

  lemma IncomeId5Splits3()
    ensures "18b9d621e267-70171412" == Join("18b9d621e267", "70171412")
  {
  }

  lemma IncomeId5Groups()
    ensures FiveGroups(INCOME_5_ID)
  {
    IncomeId5Splits();
    IncomeId5Splits1();
    IncomeId5Splits2();
    IncomeId5Splits3();
    SplitIntoFiveGroups(INCOME_5_ID, "18b9d621e267-70171412-adc9-4214", "18b9d621e267-70171412-adc9", "18b9d621e267-70171412", "18b9d621e267", "70171412", "adc9", "4214", "90b9");
  }

  lemma IncomeId6Splits()
    ensures INCOME_6_ID == Join("5c716a6bfb52-cc39552f-f007-4745", "9d0f")
  {
  }

  lemma IncomeId6Splits1()
    ensures "5c716a6bfb52-cc39552f-f007-4745" == Join("5c716a6bfb52-cc39552f-f007", "4745")
  {
  }

  lemma IncomeId6Splits2()
    ensures "5c716a6bfb52-cc39552f-f007" == Join("5c716a6bfb52-cc39552f", "f007")
  {
  }

  lemma IncomeId6Splits3()
    ensures "5c716a6bfb52-cc39552f" == Join("5c716a6bfb52", "cc39552f")
  {
  }

  lemma IncomeId6Groups()
    ensures FiveGroups(INCOME_6_ID)
  {
    IncomeId6Splits();
    IncomeId6Splits1();
    IncomeId6Splits2();
    IncomeId6Splits3();
    SplitIntoFiveGroups(INCOME_6_ID, "5c716a6bfb52-cc39552f-f007-4745", "5c716a6bfb52-cc39552f-f007", "5c716a6bfb52-cc39552f", "5c716a6bfb52", "cc39552f", "f007", "4745", "9d0f");
  }

  lemma IncomeId7Splits()
    ensures INCOME_7_ID == Join("7f742d0c-4c84-4580-99b8", "045f40986a39")
  {
  }

  lemma IncomeId7Splits1()
    ensures "7f742d0c-4c84-4580-99b8" == Join("7f742d0c-4c84-4580", "99b8")
  {
  }

  lemma IncomeId7Splits2()
    ensures "7f742d0c-4c84-4580" == Join("7f742d0c-4c84", "4580")
  {
  }

  lemma IncomeId7Splits3()
    ensures "7f742d0c-4c84" == Join("7f742d0c", "4c84")
  {
  }

  lemma IncomeId7Groups()
    ensures FiveGroups(INCOME_7_ID)
  {
    IncomeId7Splits();
    IncomeId7Splits1();
    IncomeId7Splits2();
    IncomeId7Splits3();
    SplitIntoFiveGroups(INCOME_7_ID, "7f742d0c-4c84-4580-99b8", "7f742d0c-4c84-4580", "7f742d0c-4c84", "7f742d0c", "4c84", "4580", "99b8", "045f40986a39");
  }

  lemma IncomeId8Splits()
    ensures INCOME_8_ID == Join("6b077f89-b9f0-4b54-b4fe", "508c9ea254eb")
  {
  }

  lemma IncomeId8Splits1()
    ensures "6b077f89-b9f0-4b54-b4fe" == Join("6b077f89-b9f0-4b54", "b4fe")
  {
  }

  lemma IncomeId8Splits2()
    ensures "6b077f89-b9f0-4b54" == Join("6b077f89-b9f0", "4b54")
  {
  }

  lemma IncomeId8Splits3()
    ensures "6b077f89-b9f0" == Join("6b077f89", "b9f0")
  {
  }

  lemma IncomeId8Groups()
    ensures FiveGroups(INCOME_8_ID)
  {
    IncomeId8Splits();
    IncomeId8Splits1();
    IncomeId8Splits2();
    IncomeId8Splits3();
    SplitIntoFiveGroups(INCOME_8_ID, "6b077f89-b9f0-4b54-b4fe", "6b077f89-b9f0-4b54", "6b077f89-b9f0", "6b077f89", "b9f0", "4b54", "b4fe", "508c9ea254eb");
  }

  lemma IncomeId9Splits()
    ensures INCOME_9_ID == Join("9efa556d-827d-452a-b525", "ed7d2ea29e26")
  {
  }

  lemma IncomeId9Splits1()
    ensures "9efa556d-827d-452a-b525" == Join("9efa556d-827d-452a", "b525")
  {
  }

  lemma IncomeId9Splits2()
    ensures "9efa556d-827d-452a" == Join("9efa556d-827d", "452a")
  {
  }

  lemma IncomeId9Splits3()
    ensures "9efa556d-827d" == Join("9efa556d", "827d")
  {
  }

  lemma IncomeId9Groups()
    ensures FiveGroups(INCOME_9_ID)
  {
    IncomeId9Splits();
    IncomeId9Splits1();
    IncomeId9Splits2();
    IncomeId9Splits3();
    SplitIntoFiveGroups(INCOME_9_ID, "9efa556d-827d-452a-b525", "9efa556d-827d-452a", "9efa556d-827d", "9efa556d", "827d", "452a", "b525", "ed7d2ea29e26");
  }

  lemma IncomeId10Splits()
    ensures INCOME_10_ID == Join("70171412-adc9-4214-90b9", "18b9d621e267")
  {
  }

  lemma IncomeId10Splits1()
    ensures "70171412-adc9-4214-90b9" == Join("70171412-adc9-4214", "90b9")
  {
  }

  lemma IncomeId10Splits2()
    ensures "70171412-adc9-4214" == Join("70171412-adc9", "4214")
  {
  }

  lemma IncomeId10Splits3()
    ensures "70171412-adc9" == Join("70171412", "adc9")
  {
  }

  lemma IncomeId10Groups()
    ensures FiveGroups(INCOME_10_ID)
  {
    IncomeId10Splits();
    IncomeId10Splits1();
    IncomeId10Splits2();
    IncomeId10Splits3();
    SplitIntoFiveGroups(INCOME_10_ID, "70171412-adc9-4214-90b9", "70171412-adc9-4214", "70171412-adc9", "70171412", "adc9", "4214", "90b9", "18b9d621e267");
  }

  lemma IncomeId11Splits()
    ensures INCOME_11_ID == Join("cc39552f-f007-4745-9d0f", "5c716a6bfb52")
  {
  }

  lemma IncomeId11Splits1()
    ensures "cc39552f-f007-4745-9d0f" == Join("cc39552f-f007-4745", "9d0f")
  {
  }

  lemma IncomeId11Splits2()
    ensures "cc39552f-f007-4745" == Join("cc39552f-f007", "4745")
  {
  }

  lemma IncomeId11Splits3()
    ensures "cc39552f-f007" == Join("cc39552f", "f007")
  {
  }

  lemma IncomeId11Groups()
    ensures FiveGroups(INCOME_11_ID)
  {
    IncomeId11Splits();
    IncomeId11Splits1();
    IncomeId11Splits2();
    IncomeId11Splits3();
    SplitIntoFiveGroups(INCOME_11_ID, "cc39552f-f007-4745-9d0f", "cc39552f-f007-4745", "cc39552f-f007", "cc39552f", "f007", "4745", "9d0f", "5c716a6bfb52");
  }

  lemma IncomeId12Splits()
    ensures INCOME_12_ID == Join("b1e2c3a4-1234-5678-9abc", "def012345678")
  {
  }

  lemma IncomeId12Splits1()
    ensures "b1e2c3a4-1234-5678-9abc" == Join("b1e2c3a4-1234-5678", "9abc")
  {
  }

  lemma IncomeId12Splits2()
    ensures "b1e2c3a4-1234-5678" == Join("b1e2c3a4-1234", "5678")
  {
  }

  lemma IncomeId12Splits3()
    ensures "b1e2c3a4-1234" == Join("b1e2c3a4", "1234")
  {
  }

  lemma IncomeId12Groups()
    ensures FiveGroups(INCOME_12_ID)
  {
    IncomeId12Splits();
    IncomeId12Splits1();
    IncomeId12Splits2();
    IncomeId12Splits3();
    SplitIntoFiveGroups(INCOME_12_ID, "b1e2c3a4-1234-5678-9abc", "b1e2c3a4-1234-5678", "b1e2c3a4-1234", "b1e2c3a4", "1234", "5678", "9abc", "def012345678");
  }

  lemma IncomeId13Splits()
    ensures INCOME_13_ID == Join("c2f3d4b5-2345-6789-abcd", "ef0123456789")
  {
  }

  lemma IncomeId13Splits1()
    ensures "c2f3d4b5-2345-6789-abcd" == Join("c2f3d4b5-2345-6789", "abcd")
  {
  }

  lemma IncomeId13Splits2()
    ensures "c2f3d4b5-2345-6789" == Join("c2f3d4b5-2345", "6789")
  {
  }

  lemma IncomeId13Splits3()
    ensures "c2f3d4b5-2345" == Join("c2f3d4b5", "2345")
  {
  }

  lemma IncomeId13Groups()
    ensures FiveGroups(INCOME_13_ID)
  {
    IncomeId13Splits();
    IncomeId13Splits1();
    IncomeId13Splits2();
    IncomeId13Splits3();
    SplitIntoFiveGroups(INCOME_13_ID, "c2f3d4b5-2345-6789-abcd", "c2f3d4b5-2345-6789", "c2f3d4b5-2345", "c2f3d4b5", "2345", "6789", "abcd", "ef0123456789");
  }

  lemma IncomeId14Splits()
    ensures INCOME_14_ID == Join("d3a4e5c6-3456-789a-bcde", "f0123456789a")
  {
  }

  lemma IncomeId14Splits1()
    ensures "d3a4e5c6-3456-789a-bcde" == Join("d3a4e5c6-3456-789a", "bcde")
  {
  }

  lemma IncomeId14Splits2()
    ensures "d3a4e5c6-3456-789a" == Join("d3a4e5c6-3456", "789a")
  {
  }

  lemma IncomeId14Splits3()
    ensures "d3a4e5c6-3456" == Join("d3a4e5c6", "3456")
  {
  }

  lemma IncomeId14Groups()
    ensures FiveGroups(INCOME_14_ID)
  {
    IncomeId14Splits();
    IncomeId14Splits1();
    IncomeId14Splits2();
    IncomeId14Splits3();
    SplitIntoFiveGroups(INCOME_14_ID, "d3a4e5c6-3456-789a-bcde", "d3a4e5c6-3456-789a", "d3a4e5c6-3456", "d3a4e5c6", "3456", "789a", "bcde", "f0123456789a");
  }
  lemma ExpenseId6DashAt4()
    ensures EXPENSE_6_ID[4] == '-'
  {
  }

  /** The seventh expense id is grouped 4-4-4-12-8; `normalizeUUID` changes it into canonical form. */
  lemma ExpenseId6Regrouped()
    ensures !IsCanonical(EXPENSE_6_ID)
    ensures IsCanonical(NormalizeUuid(EXPENSE_6_ID)) && NormalizeUuid(EXPENSE_6_ID) != EXPENSE_6_ID
  {
    ExpenseId6DashAt4();
    ExpenseId6Groups();
    FiveGroupsStrip(EXPENSE_6_ID);
    MisplacedDashesRegrouped(EXPENSE_6_ID);
  }
  /** The expense catalog's ids, in catalog order. */
  const EXPENSE_IDS: seq<string> := [
    EXPENSE_0_ID, EXPENSE_1_ID, EXPENSE_2_ID, EXPENSE_3_ID, EXPENSE_4_ID,
    EXPENSE_5_ID, EXPENSE_6_ID, EXPENSE_7_ID, EXPENSE_8_ID, EXPENSE_9_ID,
    EXPENSE_10_ID, EXPENSE_11_ID, EXPENSE_12_ID, EXPENSE_13_ID, EXPENSE_14_ID,
    EXPENSE_15_ID, EXPENSE_16_ID, EXPENSE_17_ID, EXPENSE_18_ID]

  /** The income catalog's ids, in catalog order. */
  const INCOME_IDS: seq<string> := [
    INCOME_0_ID, INCOME_1_ID, INCOME_2_ID, INCOME_3_ID, INCOME_4_ID,
    INCOME_5_ID, INCOME_6_ID, INCOME_7_ID, INCOME_8_ID, INCOME_9_ID,
    INCOME_10_ID, INCOME_11_ID, INCOME_12_ID, INCOME_13_ID, INCOME_14_ID]

  /** Every expense id is five dash-free groups joined by dashes. */
  lemma ExpenseIdListGrouped()
    ensures forall i :: 0 <= i < |EXPENSE_IDS| ==> FiveGroups(EXPENSE_IDS[i])
  {
    ExpenseId0Groups();
    ExpenseId1Groups();
    ExpenseId2Groups();
    ExpenseId3Groups();
    ExpenseId4Groups();
    ExpenseId5Groups();
    ExpenseId6Groups();
    ExpenseId7Groups();
    ExpenseId8Groups();
    ExpenseId9Groups();
    ExpenseId10Groups();
    ExpenseId11Groups();
    ExpenseId12Groups();
    ExpenseId13Groups();
    ExpenseId14Groups();
    ExpenseId15Groups();
    ExpenseId16Groups();
    ExpenseId17Groups();
    ExpenseId18Groups();
  }

  /** Every income id is five dash-free groups joined by dashes. */
  lemma IncomeIdListGrouped()
    ensures forall i :: 0 <= i < |INCOME_IDS| ==> FiveGroups(INCOME_IDS[i])
  {
    IncomeId0Groups();
    IncomeId1Groups();
    IncomeId2Groups();
    IncomeId3Groups();
    IncomeId4Groups();
    IncomeId5Groups();
    IncomeId6Groups();
    IncomeId7Groups();
    IncomeId8Groups();
    IncomeId9Groups();
    IncomeId10Groups();
    IncomeId11Groups();
    IncomeId12Groups();
    IncomeId13Groups();
    IncomeId14Groups();
  }

  // Distinctness goes through two characters of each id, which already tell the ids of one catalog apart.

  /** Strings whose characters at two positions form distinct pairs are distinct. */
  lemma DistinctByFingerprint(s: seq<string>, keys: seq<(char, char)>, k1: nat, k2: nat)
    requires |keys| == |s| && Distinct(keys)
    requires forall i :: 0 <= i < |s| ==> k1 < |s[i]| && k2 < |s[i]| && keys[i] == (s[i][k1], s[i][k2])
    ensures Distinct(s)
  {
  }

  /** Characters 0 and 20 of each expense id. */
  const EXPENSE_KEYS: seq<(char, char)> := [
    ('7', '9'), ('c', 'd'), ('6', '4'), ('9', '5'), ('7', '0'), ('5', 'd'), ('4', '0'), ('b', 'e'),
    ('8', 'e'), ('a', '6'), ('f', 'a'), ('4', '3'), ('4', 'e'), ('4', '2'), ('4', '6'), ('4', '5'),
    ('9', '7'), ('b', '0'), ('b', 'f')]

  /** Characters 0 and 1 of each income id. */
  const INCOME_KEYS: seq<(char, char)> := [
    ('9', '0'), ('9', 'd'), ('0', '4'), ('5', '0'), ('e', 'd'), ('1', '8'), ('5', 'c'), ('7', 'f'),
    ('6', 'b'), ('9', 'e'), ('7', '0'), ('c', 'c'), ('b', '1'), ('c', '2'), ('d', '3')]

  lemma ExpenseKeysMatch()
    ensures |EXPENSE_KEYS| == |EXPENSE_IDS|
    ensures forall i :: 0 <= i < |EXPENSE_IDS| ==>
      20 < |EXPENSE_IDS[i]| && EXPENSE_KEYS[i] == (EXPENSE_IDS[i][0], EXPENSE_IDS[i][20])
  {
  }

  lemma ExpenseKeysDistinct()
    ensures Distinct(EXPENSE_KEYS)
  {
  }

  lemma IncomeKeysMatch()
    ensures |INCOME_KEYS| == |INCOME_IDS|
    ensures forall i :: 0 <= i < |INCOME_IDS| ==>
      1 < |INCOME_IDS[i]| && INCOME_KEYS[i] == (INCOME_IDS[i][0], INCOME_IDS[i][1])
  {
  }

  lemma IncomeKeysDistinct()
    ensures Distinct(INCOME_KEYS)
  {
  }

  /** No id occurs twice in the expense catalog. */
  lemma ExpenseIdListDistinct()
    ensures Distinct(EXPENSE_IDS)
  {
    ExpenseKeysMatch();
    ExpenseKeysDistinct();
    DistinctByFingerprint(EXPENSE_IDS, EXPENSE_KEYS, 0, 20);
  }

  /** No id occurs twice in the income catalog. */
  lemma IncomeIdListDistinct()
    ensures Distinct(INCOME_IDS)
  {
    IncomeKeysMatch();
    IncomeKeysDistinct();
    DistinctByFingerprint(INCOME_IDS, INCOME_KEYS, 0, 1);
  }
}
