/** The older, untyped copy of the services in the plain-script front end:
    its mock catalog, its mock identity service, and its rule engine.
    Profiles there hold the raw dropdown strings, so the rules compare
    strings; the records have the same shape as the typed ones and reuse
    their datatypes. */
module LegacyScript {
  import opened Common
  import opened Types
  import Rec = RecommendationService
  import Mock = MockAadhaarService

  /** The profile object built by the profile form. */
  datatype LegacyProfile = LegacyProfile(
    name: string,
    state: string,
    district: string,
    educationLevel: string,
    incomeRange: string)

  // ---------------------------------------------------------------------
  // MOCK_DB
  // ---------------------------------------------------------------------

  const MockScholarships: seq<Scholarship> := [
    Scholarship("NSP-001", "Post Matric Scholarship (Minorities)", "Min. Minority Affairs",
      "\U{20B9}12,000/yr", "2024-10-31", "Income < 2L, >50% prev exam", ["Minority"]),
    Scholarship("NSP-002", "Central Sector Scheme", "Dept. Higher Education",
      "\U{20B9}20,000/yr", "2024-11-15", "Top 20th Percentile Class 12", ["Merit"]),
    Scholarship("AICTE-001", "Pragati Scholarship", "AICTE",
      "\U{20B9}50,000/yr", "2024-12-01", "Girl students in Tech", ["Women"]),
    Scholarship("ST-001", "Pre-Matric SC Scholarship", "Min. Social Justice",
      "\U{20B9}3,500/yr", "2024-09-30", "Income < 2.5L", ["SC"])
  ]

  const MockCourses: seq<Course> := [
    Course("SW-01", "Intro to Python", Swayam, "8 Weeks", true, "CS"),
    Course("NSDC-01", "Data Entry Operator", Nsdc, "12 Weeks", true, "Vocational"),
    Course("NPTEL-01", "Soft Skills", Nptel, "4 Weeks", false, "Mgmt"),
    Course("SI-01", "EV Technician", SkillIndia, "6 Months", true, "Tech")
  ]

  /** The script's catalog lists the typed catalog's records under the same
      ids in the same order, and its short categories select the same
      courses as the typed ones. */
  lemma MockCatalog()
    ensures Ids(MockScholarships, ScholarshipId) == Ids(Rec.ScholarshipDb, ScholarshipId)
    ensures Ids(MockCourses, CourseId) == Ids(Rec.CourseDb, CourseId)
    ensures forall i :: 0 <= i < |MockCourses| ==>
      && IsVocationalCourse(MockCourses[i]) == Rec.IsVocationalCourse(Rec.CourseDb[i])
      && IsDegreeCourse(MockCourses[i]) == Rec.IsDegreeCourse(Rec.CourseDb[i])
  {
  }

  // ---------------------------------------------------------------------
  // MockAadhaarService
  // ---------------------------------------------------------------------

  datatype LegacySendOtpResponse = LegacySendOtpResponse(success: bool, message: Option<string>)

  /** The reply to `verifyOtp`; the KYC data sits under `user`. */
  datatype LegacyVerifyResponse = LegacyVerifyResponse(
    success: bool,
    token: Option<string>,
    user: Option<UserData>,
    message: Option<string>)

  /** `sendOtp`: checks the length only. */
  function SendOtp(aadhaar: string): (r: LegacySendOtpResponse)
    ensures r.success <==> |aadhaar| == 12
    ensures r.success ==> r.message.None?
    ensures !r.success ==> r.message == Some("Invalid Aadhaar Number")
  {
    if |aadhaar| == 12 then LegacySendOtpResponse(true, None)
    else LegacySendOtpResponse(false, Some("Invalid Aadhaar Number"))
  }

  /** Everything the typed service accepts, this one accepts too, but not
      the other way round: twelve letters pass here. */
  lemma SendOtpWeakerThanTyped(aadhaar: string)
    ensures Mock.SendOtp(aadhaar).success ==> SendOtp(aadhaar).success
    ensures SendOtp("ABCDEFGHIJKL").success && !Mock.SendOtp("ABCDEFGHIJKL").success
  {
    assert !IsDigit("ABCDEFGHIJKL"[0]);
  }

  /** `verifyOtp`: the same demo code; the token is `UID_` and the time. */
  function VerifyOtp(otp: string, now: nat): (r: LegacyVerifyResponse)
    ensures r.success <==> otp == Mock.DemoOtp
    ensures r.success ==> r.token == Some("UID_" + Mock.Decimal(now)) && r.user == Some(Mock.KycData) && r.message.None?
    ensures !r.success ==> r.token.None? && r.user.None? && r.message == Some("Incorrect OTP")
  {
    if otp == "123456" then
      LegacyVerifyResponse(true, Some("UID_" + Mock.Decimal(now)), Some(UserData("Rahul Kumar", "Delhi")), None)
    else
      LegacyVerifyResponse(false, None, None, Some("Incorrect OTP"))
  }

  // ---------------------------------------------------------------------
  // RuleEngine.getScholarships
  // ---------------------------------------------------------------------

  predicate LowIncome(income: string)
  {
    income == "Below 1 Lakh" || income == "1 Lakh - 2.5 Lakhs"
  }

  predicate HigherEducation(edu: string)
  {
    edu == "Undergraduate" || edu == "Postgraduate"
  }

  predicate TechnicalEducation(edu: string)
  {
    edu == "Diploma" || edu == "Undergraduate"
  }

  predicate Grants(income: string, edu: string, id: string)
  {
    || (LowIncome(income) && (id == "NSP-001" || id == "ST-001"))
    || (HigherEducation(edu) && id == "NSP-002")
    || (TechnicalEducation(edu) && id == "AICTE-001")
  }

  function GrantsFor(income: string, edu: string): string -> bool
  {
    id => Grants(income, edu, id)
  }

  /** The granted ids, in rule order. */
  function EligibleIds(income: string, edu: string): seq<string>
  {
    Filter(Rec.RuleOrder, GrantsFor(income, edu))
  }

  lemma EligibleIdsByRule(income: string, edu: string)
    ensures EligibleIds(income, edu)
         == (if LowIncome(income) then ["NSP-001", "ST-001"] else [])
          + (if HigherEducation(edu) then ["NSP-002"] else [])
          + (if TechnicalEducation(edu) then ["AICTE-001"] else [])
  {
    var p := GrantsFor(income, edu);
    Rec.RuleOrderFilter(p);
    assert p("NSP-001") == LowIncome(income) && p("ST-001") == LowIncome(income);
    assert p("NSP-002") == HigherEducation(edu) && p("AICTE-001") == TechnicalEducation(edu);
  }

  lemma RuleLookupsSucceed()
    ensures forall id :: id in Rec.RuleOrder ==> Rec.FindScholarship(MockScholarships, id).Some?
  {
    assert MockScholarships[0].id == "NSP-001" && MockScholarships[1].id == "NSP-002";
    assert MockScholarships[2].id == "AICTE-001" && MockScholarships[3].id == "ST-001";
  }

  /** `RuleEngine.getScholarships`: the same three pushes, `new Set` and
      `filter(Boolean)` as the typed engine, over `MOCK_DB`. */
  method GetScholarships(profile: LegacyProfile) returns (result: seq<Scholarship>)
    ensures Ids(result, ScholarshipId) == EligibleIds(profile.incomeRange, profile.educationLevel)
    ensures forall s :: s in result ==> s in MockScholarships
  {
    var eligible: seq<Option<Scholarship>> := [];
    ghost var pushed: seq<string> := [];
    var income := profile.incomeRange;
    var edu := profile.educationLevel;

    if income == "Below 1 Lakh" || income == "1 Lakh - 2.5 Lakhs" {
      Rec.LooksUpPush(MockScholarships, eligible, pushed, "NSP-001");
      eligible, pushed := eligible + [Rec.FindScholarship(MockScholarships, "NSP-001")], pushed + ["NSP-001"];
      Rec.LooksUpPush(MockScholarships, eligible, pushed, "ST-001");
      eligible, pushed := eligible + [Rec.FindScholarship(MockScholarships, "ST-001")], pushed + ["ST-001"];
    }
    assert pushed == if LowIncome(income) then ["NSP-001", "ST-001"] else [];
    if edu == "Undergraduate" || edu == "Postgraduate" {
      Rec.LooksUpPush(MockScholarships, eligible, pushed, "NSP-002");
      eligible, pushed := eligible + [Rec.FindScholarship(MockScholarships, "NSP-002")], pushed + ["NSP-002"];
    }
    assert pushed == (if LowIncome(income) then ["NSP-001", "ST-001"] else [])
      + (if HigherEducation(edu) then ["NSP-002"] else []);
    if edu == "Diploma" || edu == "Undergraduate" {
      Rec.LooksUpPush(MockScholarships, eligible, pushed, "AICTE-001");
      eligible, pushed := eligible + [Rec.FindScholarship(MockScholarships, "AICTE-001")], pushed + ["AICTE-001"];
    }
    EligibleIdsByRule(income, edu);
    assert pushed == EligibleIds(income, edu);

    var unique := DedupInOrder(eligible);
    result := DropUndefined(unique);

    Rec.RuleOrderDistinct();
    FilterMembership(Rec.RuleOrder, GrantsFor(income, edu));
    assert NoDuplicates(pushed) by { FilterDistinct(Rec.RuleOrder, GrantsFor(income, edu)); }
    RuleLookupsSucceed();
    Rec.LookupsOfDistinctIds(MockScholarships, eligible, pushed);
  }

  /** Fed the typed enums' strings, the script's rules grant exactly what
      the typed rules grant. */
  lemma ScholarshipRulesAgree(income: IncomeRange, edu: EducationLevel)
    ensures EligibleIds(income.Label(), edu.Label()) == Rec.EligibleIds(income, edu)
  {
    EligibleIdsByRule(income.Label(), edu.Label());
    Rec.EligibleIdsByRule(income, edu);
  }

  // ---------------------------------------------------------------------
  // RuleEngine.getCourses
  // ---------------------------------------------------------------------

  predicate IsVocationalCourse(c: Course)
  {
    c.category == "Vocational" || c.platform == SkillIndia
  }

  predicate IsDegreeCourse(c: Course)
  {
    c.category == "CS" || c.category == "Mgmt"
  }

  /** `RuleEngine.getCourses`: vocational courses when the level's text
      contains "Class", the CS/Mgmt courses for anything else. */
  function GetCourses(profile: LegacyProfile): (r: seq<Course>)
    ensures SubsequenceOf(r, MockCourses)
    ensures Includes(profile.educationLevel, "Class") ==>
      forall c :: c in r <==> c in MockCourses && IsVocationalCourse(c)
    ensures !Includes(profile.educationLevel, "Class") ==>
      forall c :: c in r <==> c in MockCourses && IsDegreeCourse(c)
  {
    if Includes(profile.educationLevel, "Class") then
      FilterMembership(MockCourses, IsVocationalCourse);
      FilterSubsequence(MockCourses, IsVocationalCourse);
      Filter(MockCourses, IsVocationalCourse)
    else
      FilterMembership(MockCourses, IsDegreeCourse);
      FilterSubsequence(MockCourses, IsDegreeCourse);
      Filter(MockCourses, IsDegreeCourse)
  }

  /** Exactly the two school levels contain "Class". */
  lemma ClassLevels(edu: EducationLevel)
    ensures Includes(edu.Label(), "Class") <==> edu == School10 || edu == School12
  {
    var s := edu.Label();
    if edu == School10 || edu == School12 {
      assert s[..5] == "Class";
    } else {
      assert 'C' !in s;
    }
  }

  /** The course ids the script returns for each level.  Diploma gets the
      CS/Mgmt pair, where the typed engine returns the whole catalog. */
  lemma CourseIdsPerLevel(profile: LegacyProfile, edu: EducationLevel)
    requires profile.educationLevel == edu.Label()
    ensures var ids := Ids(GetCourses(profile), CourseId);
      if edu == School10 || edu == School12 then ids == ["NSDC-01", "SI-01"]
      else ids == ["SW-01", "NPTEL-01"]
  {
    ClassLevels(edu);
    CourseGroups();
  }

  /** The two course groups of `MOCK_DB`, by id. */
  lemma CourseGroups()
    ensures Ids(Filter(MockCourses, IsVocationalCourse), CourseId) == ["NSDC-01", "SI-01"]
    ensures Ids(Filter(MockCourses, IsDegreeCourse), CourseId) == ["SW-01", "NPTEL-01"]
  {
    var c := MockCourses;
    assert c[1..] == [c[1], c[2], c[3]];
    assert c[1..][1..] == [c[2], c[3]];
    assert c[1..][1..][1..] == [c[3]];
    assert c[1..][1..][1..][1..] == [];
  }

  /** The two engines recommend the same course ids for every level but
      Diploma. */
  lemma CoursesAgreeExceptDiploma(profile: LegacyProfile, typed: StudentProfile)
    requires profile.educationLevel == typed.educationLevel.Label()
    ensures Ids(GetCourses(profile), CourseId) == Ids(Rec.GetRecommendedCourses(typed), CourseId)
        <==> typed.educationLevel != Diploma
  {
    CourseIdsPerLevel(profile, typed.educationLevel);
    Rec.RecommendedCourseIds(typed);
  }

  // ---------------------------------------------------------------------
  // RuleEngine.getNextSteps
  // ---------------------------------------------------------------------

  const NextStepsTable: map<string, seq<string>> := map[
    "Class 10" := ["Explore Diploma Engg", "Prep for Higher Secondary"],
    "Class 12" := ["Apply for CUET (UG)", "Vocational Training"],
    "Diploma" := ["Lateral Entry B.Tech", "NAPS Apprenticeship"],
    "Undergraduate" := ["GATE/CAT Prep", "Industry Certification"],
    "Postgraduate" := ["PhD Research", "NET Exam"]
  ]

  const DefaultNextSteps: seq<string> := ["Upskill", "Certifications"]

  /** The table's keys are exactly the education levels' strings, and every
      entry is a pair other than the default. */
  lemma NextStepsTableKeys()
    ensures forall k :: k in NextStepsTable <==> exists e: EducationLevel :: e.Label() == k
    ensures forall k :: k in NextStepsTable ==> |NextStepsTable[k]| == 2 && NextStepsTable[k] != DefaultNextSteps
  {
    forall k | k in NextStepsTable ensures exists e: EducationLevel :: e.Label() == k {
      if k == "Class 10" { assert School10.Label() == k; }
      else if k == "Class 12" { assert School12.Label() == k; }
      else if k == "Diploma" { assert Diploma.Label() == k; }
      else if k == "Undergraduate" { assert UG.Label() == k; }
      else { assert PG.Label() == k; }
    }
  }

  /** `RuleEngine.getNextSteps`: the table entry, or the default pair for
      any other string. */
  function GetNextSteps(edu: string): (r: seq<string>)
    ensures |r| == 2
    ensures edu in NextStepsTable ==> r == NextStepsTable[edu] && r != DefaultNextSteps
    ensures edu !in NextStepsTable ==> r == DefaultNextSteps
  {
    if edu in NextStepsTable then NextStepsTable[edu] else DefaultNextSteps
  }

  /** Every level has its own entry, Postgraduate included: the script
      never falls back for a level of the enum, while the typed engine
      falls back for Postgraduate. */
  lemma NextStepsCoverEveryLevel(edu: EducationLevel)
    ensures edu.Label() in NextStepsTable
    ensures GetNextSteps(edu.Label()) != DefaultNextSteps
    ensures edu == PG ==>
      GetNextSteps(edu.Label()) == ["PhD Research", "NET Exam"] && Rec.GetNextSteps(edu) == Rec.DefaultNextSteps
  {
  }
}
