/**
 * The bank registry and shared constants of crawl/config.py. Python dicts
 * keep insertion order, so each is an association list.
 */
module Config {
  import opened Wrappers
  import opened Seqs

  /** `BANKS_ALL`, in its four groups. */
  const StateOwnedBanks: seq<string> := ["Vietcombank", "BIDV", "VietinBank", "Agribank"]
  const PrivateBanks: seq<string> := [
    "Techcombank", "MB Bank", "TPBank", "VPBank", "SHB", "HDBank", "OCB", "ACB",
    "Sacombank", "Eximbank", "SeABank", "Bac A Bank", "LienVietPostBank", "Nam A Bank",
    "PVcomBank", "Kienlongbank", "ABBank", "NCB"
  ]
  const ForeignBanks: seq<string> := [
    "HSBC Vietnam", "Standard Chartered VN", "Shinhan Bank VN", "UOB VN", "OCBC VN",
    "Public Bank VN", "Hong Leong VN", "Indovina Bank", "Maybank VN"
  ]
  const OtherBanks: seq<string> := ["VietABank", "Saigonbank", "VRB", "PG Bank"]

  const BanksAll: seq<string> := StateOwnedBanks + PrivateBanks + ForeignBanks + OtherBanks

  /** `BANK_APPS_IOS`, App Store ids in the same four groups; None means no iOS app. */
  const StateOwnedIos: seq<(string, Option<int>)> := [
    ("Vietcombank", Some(561433133)), ("BIDV", Some(1061867449)),
    ("VietinBank", Some(689963454)), ("Agribank", Some(935944952))
  ]
  const PrivateIos: seq<(string, Option<int>)> := [
    ("Techcombank", Some(1548623362)), ("MB Bank", Some(1205807363)),
    ("TPBank", Some(450464147)), ("VPBank", Some(1209349510)),
    ("SHB", Some(1661457183)), ("HDBank", Some(1461658565)),
    ("OCB", Some(6472261202)), ("ACB", Some(950141024)),
    ("Sacombank", Some(1436283663)), ("Eximbank", Some(1571427361)),
    ("SeABank", Some(846407152)), ("Bac A Bank", Some(1441408786)),
    ("LienVietPostBank", Some(1488794748)), ("Nam A Bank", Some(1456997296)),
    ("PVcomBank", Some(6467857410)), ("Kienlongbank", Some(1562823941)),
    ("ABBank", Some(6636532294)), ("NCB", Some(1435405040))
  ]
  const ForeignIos: seq<(string, Option<int>)> := [
    ("HSBC Vietnam", Some(1472163155)), ("Standard Chartered VN", None),
    ("Shinhan Bank VN", Some(1071033810)), ("UOB VN", Some(1174327324)),
    ("OCBC VN", None), ("Public Bank VN", Some(1573736472)),
    ("Hong Leong VN", None), ("Indovina Bank", Some(1096963960)),
    ("Maybank VN", None)
  ]
  const OtherIos: seq<(string, Option<int>)> := [
    ("VietABank", Some(6744814738)), ("Saigonbank", Some(1481832587)),
    ("VRB", None), ("PG Bank", Some(1537765475))
  ]

  const BankAppsIos: seq<(string, Option<int>)> := StateOwnedIos + PrivateIos + ForeignIos + OtherIos

  /** Google Play package ids, for the ten banks that have one. */
  const BankAppsGoogle: seq<(string, string)> := [
    ("Vietcombank", "com.VCB"),
    ("BIDV", "com.bidv.smartbanking"),
    ("VietinBank", "com.vietinbank.ipay"),
    ("Agribank", "com.vnpay.Agribank3g"),
    ("Techcombank", "vn.com.techcombank.bb.app"),
    ("MB Bank", "com.mbmobile"),
    ("TPBank", "com.tpb.mb.smartbank"),
    ("VPBank", "com.vnpay.vpbankonline"),
    ("Sacombank", "com.sacombank.pay"),
    ("ACB", "com.acb.acbonline")
  ]

  /** Weights of ratings 1..5 in synthetic reviews. */
  const RatingWeights: seq<int> := [12, 13, 25, 25, 25]
  const DummyReviewsPerBank: nat := 500
  const CrawlReviewsPerBank: nat := 3000

  /** The banks that `BankAppsIos` maps to None. */
  const BanksWithoutIosApp: seq<string> :=
    ["Standard Chartered VN", "OCBC VN", "Hong Leong VN", "Maybank VN", "VRB"]

  /** The canonical column order of the exported table. */
  const FinalColumns: seq<string> := [
    "review_id", "date", "bank_name", "rating", "churn", "platform",
    "sex", "age", "tenure", "credit_score", "balance",
    "products_number", "credit_card", "active_member", "data_source"
  ]

  lemma BanksAllDistinct()
    ensures |BanksAll| == 35 && Distinct(BanksAll)
  {
    GroupsDistinct();
    StateOwnedApart();
    PrivateApart();
    ForeignApart();
    DistinctAppend(StateOwnedBanks, PrivateBanks);
    DistinctAppend(StateOwnedBanks + PrivateBanks, ForeignBanks);
    DistinctAppend(StateOwnedBanks + PrivateBanks + ForeignBanks, OtherBanks);
  }

  lemma GroupsDistinct()
    ensures Distinct(StateOwnedBanks) && Distinct(PrivateBanks)
    ensures Distinct(ForeignBanks) && Distinct(OtherBanks)
  {
  }

  lemma StateOwnedApart()
    ensures forall i, j :: 0 <= i < |StateOwnedBanks| && 0 <= j < |PrivateBanks| ==>
              StateOwnedBanks[i] != PrivateBanks[j]
  {
  }

  lemma PrivateApart()
    ensures forall i, j :: 0 <= i < |StateOwnedBanks + PrivateBanks| && 0 <= j < |ForeignBanks| ==>
              (StateOwnedBanks + PrivateBanks)[i] != ForeignBanks[j]
  {
  }

  lemma ForeignApart()
    ensures forall i, j :: 0 <= i < |StateOwnedBanks + PrivateBanks + ForeignBanks| && 0 <= j < |OtherBanks| ==>
              (StateOwnedBanks + PrivateBanks + ForeignBanks)[i] != OtherBanks[j]
  {
  }

  /** Every bank has an App Store entry, in registry order; exactly five have no app. */
  lemma IosRegistryCoversBanks()
    ensures Keys(BankAppsIos) == BanksAll
    ensures forall i :: 0 <= i < |BankAppsIos| ==>
              (BankAppsIos[i].1.None? <==> BankAppsIos[i].0 in BanksWithoutIosApp)
    ensures |BanksWithoutIosApp| == 5 && Distinct(BanksWithoutIosApp)
  {
    IosKeys();
    IosMissing();
  }

  lemma IosKeys()
    ensures Keys(BankAppsIos) == BanksAll
  {
    assert Keys(StateOwnedIos) == StateOwnedBanks;
    assert Keys(PrivateIos) == PrivateBanks;
    assert Keys(ForeignIos) == ForeignBanks;
    assert Keys(OtherIos) == OtherBanks;
    KeysAppend(StateOwnedIos, PrivateIos);
    KeysAppend(StateOwnedIos + PrivateIos, ForeignIos);
    KeysAppend(StateOwnedIos + PrivateIos + ForeignIos, OtherIos);
  }

  /** A bank has no iOS app iff it is one of the five listed. */
  predicate NoAppExactlyListed(group: seq<(string, Option<int>)>)
  {
    forall i :: 0 <= i < |group| ==> (group[i].1.None? <==> group[i].0 in BanksWithoutIosApp)
  }

  lemma IosMissing()
    ensures forall i :: 0 <= i < |BankAppsIos| ==>
              (BankAppsIos[i].1.None? <==> BankAppsIos[i].0 in BanksWithoutIosApp)
    ensures |BanksWithoutIosApp| == 5 && Distinct(BanksWithoutIosApp)
  {
    DomesticNoApp();
    ForeignNoApp();
    NoAppAppend(StateOwnedIos, PrivateIos);
    NoAppAppend(StateOwnedIos + PrivateIos, ForeignIos);
    NoAppAppend(StateOwnedIos + PrivateIos + ForeignIos, OtherIos);
  }

  lemma DomesticNoApp()
    ensures NoAppExactlyListed(StateOwnedIos) && NoAppExactlyListed(PrivateIos)
  {
  }

  lemma ForeignNoApp()
    ensures NoAppExactlyListed(ForeignIos) && NoAppExactlyListed(OtherIos)
  {
  }

  lemma NoAppAppend(a: seq<(string, Option<int>)>, b: seq<(string, Option<int>)>)
    requires NoAppExactlyListed(a) && NoAppExactlyListed(b)
    ensures NoAppExactlyListed(a + b)
  {
    forall i | 0 <= i < |a + b|
      ensures ((a + b)[i].1.None? <==> (a + b)[i].0 in BanksWithoutIosApp)
    {
      if i < |a| { assert (a + b)[i] == a[i]; } else { assert (a + b)[i] == b[i - |a|]; }
    }
  }

  /** The Google Play registry names ten distinct banks, all of them in `BanksAll`. */
  lemma GoogleRegistryWithinBanks()
    ensures |BankAppsGoogle| == 10 && Distinct(Keys(BankAppsGoogle))
    ensures forall i :: 0 <= i < |BankAppsGoogle| ==> BankAppsGoogle[i].0 in BanksAll
  {
  }

  lemma RatingWeightsPositive()
    ensures |RatingWeights| == 5
    ensures forall k :: 0 <= k < 5 ==> RatingWeights[k] > 0
  {
  }

  /** Fifteen distinct names: the six review fields first, `data_source` last. */
  lemma FinalColumnsShape()
    ensures |FinalColumns| == 15 && Distinct(FinalColumns)
    ensures FinalColumns[..6] == ["review_id", "date", "bank_name", "rating", "churn", "platform"]
    ensures FinalColumns[14] == "data_source"
  {
  }
}
