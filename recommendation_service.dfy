/** The explainable rule engine: a static catalog of scholarships and
    courses, three OR-combined eligibility rules, a three-way course
    partition on education level, and a next-steps lookup table. */
module RecommendationService {
  import opened Common
  import opened Types

  // ---------------------------------------------------------------------
  // Catalogs
  // ---------------------------------------------------------------------

  const ScholarshipDb: seq<Scholarship> := [
    Scholarship("NSP-001", "Post Matric Scholarship Scheme for Minorities",
      "Ministry of Minority Affairs", "\U{20B9}12,000 / year", "2024-10-31",
      "Income < 2L, Scored > 50% in prev exam", ["Minority", "Needs-based"]),
    Scholarship("NSP-002", "Central Sector Scheme of Scholarship",
      "Department of Higher Education", "\U{20B9}10,000 - \U{20B9}20,000 / year", "2024-11-15",
      "Top 20th Percentile in Class 12", ["Merit-based", "UG", "PG"]),
    Scholarship("AICTE-001", "Pragati Scholarship Scheme",
      "AICTE", "\U{20B9}50,000 / year", "2024-12-01",
      "Girl students admitted to Diploma/Degree", ["Women", "Technical"]),
    Scholarship("ST-001", "Pre-Matric Scholarship for SC Students",
      "Ministry of Social Justice", "\U{20B9}3,500 / year", "2024-09-30",
      "Parental Income < 2.5L", ["SC", "School"])
  ]

  const CourseDb: seq<Course> := [
    Course("SW-01", "Introduction to Python Programming", Swayam, "8 Weeks", true, "Computer Science"),
    Course("NSDC-01", "Data Entry Operator Qualification", Nsdc, "12 Weeks", true, "Vocational"),
    Course("NPTEL-01", "Soft Skills for Business Negotiations", Nptel, "4 Weeks", false, "Management"),
    Course("SI-01", "Electric Vehicle Technician", SkillIndia, "6 Months", true, "Technical")
  ]

  /** The catalog holds one record per id, and its ids are exactly the ones
      the rules can push. */
  lemma ScholarshipCatalog()
    ensures NoDuplicates(Ids(ScholarshipDb, ScholarshipId))
    ensures forall id :: id in Ids(ScholarshipDb, ScholarshipId) <==> id in RuleOrder
  {
    var ids := Ids(ScholarshipDb, ScholarshipId);
    assert ids == ["NSP-001", "NSP-002", "AICTE-001", "ST-001"];
    assert ids[0][6] != ids[1][6] && ids[2][0] == 'A' && ids[3][0] == 'S';
  }

  /** One record per id; no course is both a school course and a degree
      course, and each of the two groups holds two courses. */
  lemma CourseCatalog()
    ensures NoDuplicates(Ids(CourseDb, CourseId))
    ensures forall c :: c in CourseDb ==> !(IsVocationalCourse(c) && IsDegreeCourse(c))
    ensures |Filter(CourseDb, IsVocationalCourse)| == 2 && |Filter(CourseDb, IsDegreeCourse)| == 2
  {
    var ids := Ids(CourseDb, CourseId);
    assert ids == ["SW-01", "NSDC-01", "NPTEL-01", "SI-01"];
    assert ids[0][0] == 'S' && ids[1][1] == 'S' && ids[2][1] == 'P' && ids[3][1] == 'I';
    var c := CourseDb;
    assert c[1..] == [c[1], c[2], c[3]];
    assert c[1..][1..] == [c[2], c[3]];
    assert c[1..][1..][1..] == [c[3]];
    assert c[1..][1..][1..][1..] == [];
  }

  // ---------------------------------------------------------------------
  // Eligibility rules
  // ---------------------------------------------------------------------

  /** The scholarship ids in the order the rules push them. */
  const RuleOrder: seq<string> := ["NSP-001", "ST-001", "NSP-002", "AICTE-001"]

  /** Rule 1, low-income support. */
  predicate LowIncome(income: IncomeRange)
  {
    income == Below1L || income == Between1L2_5L
  }

  /** Rule 2, higher-education support. */
  predicate HigherEducation(edu: EducationLevel)
  {
    edu == UG || edu == PG
  }

  /** Rule 3, technical/diploma support. */
  predicate TechnicalEducation(edu: EducationLevel)
  {
    edu == Diploma || edu == UG
  }

  /** Some rule that fires for this income and level grants scholarship `id`. */
  predicate Grants(income: IncomeRange, edu: EducationLevel, id: string)
  {
    || (LowIncome(income) && (id == "NSP-001" || id == "ST-001"))
    || (HigherEducation(edu) && id == "NSP-002")
    || (TechnicalEducation(edu) && id == "AICTE-001")
  }

  /** Reference definition of the eligibility result: the granted ids, in
      rule order. */
  function EligibleIds(income: IncomeRange, edu: EducationLevel): seq<string>
  {
    Filter(RuleOrder, GrantsFor(income, edu))
  }

  function GrantsFor(income: IncomeRange, edu: EducationLevel): string -> bool
  {
    id => Grants(income, edu, id)
  }

  /** `db.find(s => s.id === id)`: the first record with that id. */
  function FindScholarship(db: seq<Scholarship>, id: string): (r: Option<Scholarship>)
    ensures r.Some? ==> r.value in db && r.value.id == id
    ensures r.None? <==> forall s :: s in db ==> s.id != id
  {
    if db == [] then None
    else if db[0].id == id then Some(db[0])
    else FindScholarship(db[1..], id)
  }

  /** Each id a rule pushes names a catalog record. */
  lemma RuleLookupsSucceed()
    ensures forall id :: id in RuleOrder ==> FindScholarship(ScholarshipDb, id).Some?
  {
    assert ScholarshipDb[0].id == "NSP-001" && ScholarshipDb[1].id == "NSP-002";
    assert ScholarshipDb[2].id == "AICTE-001" && ScholarshipDb[3].id == "ST-001";
  }

  /** `eligible` holds the lookups of `ids` in `db`, position by position. */
  ghost predicate LooksUp(db: seq<Scholarship>, eligible: seq<Option<Scholarship>>, ids: seq<string>)
  {
    |eligible| == |ids| && forall k :: 0 <= k < |ids| ==> eligible[k] == FindScholarship(db, ids[k])
  }

  lemma LooksUpPush(db: seq<Scholarship>, eligible: seq<Option<Scholarship>>, ids: seq<string>, id: string)
    requires LooksUp(db, eligible, ids)
    ensures LooksUp(db, eligible + [FindScholarship(db, id)], ids + [id])
  {
  }

  /** Looking up distinct ids that all exist gives distinct records, which
      de-duplication and the `Boolean` filter pass through unchanged. */
  lemma {:induction false} LookupsOfDistinctIds(db: seq<Scholarship>, eligible: seq<Option<Scholarship>>, ids: seq<string>)
    requires LooksUp(db, eligible, ids)
    requires NoDuplicates(ids)
    requires forall id :: id in ids ==> FindScholarship(db, id).Some?
    ensures Ids(Present(Dedup(eligible)), ScholarshipId) == ids
    ensures forall s :: s in Present(Dedup(eligible)) ==> s in db
  {
    assert forall k :: 0 <= k < |eligible| ==>
      eligible[k].Some? && eligible[k].value in db && eligible[k].value.id == ids[k];
    assert NoDuplicates(eligible) by {
      forall i, j | 0 <= i < j < |eligible| ensures eligible[i] != eligible[j] {
        assert ids[i] != ids[j];
      }
    }
    DedupOfDistinct(eligible);
    PresentOfDefined(eligible);
  }

  /** Every rule's scholarship is in the catalog under a distinct id. */
  lemma {:induction false} RuleOrderDistinct()
    ensures NoDuplicates(RuleOrder)
  {
    assert RuleOrder[0][0] == 'N' && RuleOrder[1][0] == 'S' && RuleOrder[3][0] == 'A';
    assert RuleOrder[0][6] != RuleOrder[2][6];
  }

  /** Any filter over the rule order, unfolded id by id. */
  lemma {:induction false} RuleOrderFilter(p: string -> bool)
    ensures Filter(RuleOrder, p)
         == (if p("NSP-001") then ["NSP-001"] else [])
          + (if p("ST-001") then ["ST-001"] else [])
          + (if p("NSP-002") then ["NSP-002"] else [])
          + (if p("AICTE-001") then ["AICTE-001"] else [])
  {
    var s3 := ["AICTE-001"];
    var s2 := ["NSP-002"] + s3;
    var s1 := ["ST-001"] + s2;
    var s0 := ["NSP-001"] + s1;
    assert s0 == RuleOrder && s0[1..] == s1 && s1[1..] == s2 && s2[1..] == s3 && s3[1..] == [];
    FilterStep(s3, p);
    FilterStep(s2, p);
    FilterStep(s1, p);
    FilterStep(s0, p);
  }

  /** The rule-order filter, unfolded into the three rules' contributions. */
  lemma EligibleIdsByRule(income: IncomeRange, edu: EducationLevel)
    ensures EligibleIds(income, edu)
         == (if LowIncome(income) then ["NSP-001", "ST-001"] else [])
          + (if HigherEducation(edu) then ["NSP-002"] else [])
          + (if TechnicalEducation(edu) then ["AICTE-001"] else [])
  {
    var p := GrantsFor(income, edu);
    RuleOrderFilter(p);
    assert p("NSP-001") == LowIncome(income) && p("ST-001") == LowIncome(income);
    assert p("NSP-002") == HigherEducation(edu) && p("AICTE-001") == TechnicalEducation(edu);
  }

  /** `getEligibleScholarships`: push the scholarship of every rule that
      fires, then de-duplicate (`new Set`) and drop lookups that found
      nothing (`filter(Boolean)`). */
  method GetEligibleScholarships(profile: StudentProfile) returns (result: seq<Scholarship>)
    ensures Ids(result, ScholarshipId) == EligibleIds(profile.incomeRange, profile.educationLevel)
    ensures forall s :: s in result ==> s in ScholarshipDb
  {
    var eligible: seq<Option<Scholarship>> := [];
    ghost var pushed: seq<string> := [];
    var income := profile.incomeRange;
    var edu := profile.educationLevel;

    if income == Below1L || income == Between1L2_5L {
      LooksUpPush(ScholarshipDb, eligible, pushed, "NSP-001");
      eligible, pushed := eligible + [FindScholarship(ScholarshipDb, "NSP-001")], pushed + ["NSP-001"];
      LooksUpPush(ScholarshipDb, eligible, pushed, "ST-001");
      eligible, pushed := eligible + [FindScholarship(ScholarshipDb, "ST-001")], pushed + ["ST-001"];
    }
    assert pushed == if LowIncome(income) then ["NSP-001", "ST-001"] else [];
    if edu == UG || edu == PG {
      LooksUpPush(ScholarshipDb, eligible, pushed, "NSP-002");
      eligible, pushed := eligible + [FindScholarship(ScholarshipDb, "NSP-002")], pushed + ["NSP-002"];
    }
    assert pushed == (if LowIncome(income) then ["NSP-001", "ST-001"] else [])
      + (if HigherEducation(edu) then ["NSP-002"] else []);
    if edu == Diploma || edu == UG {
      LooksUpPush(ScholarshipDb, eligible, pushed, "AICTE-001");
      eligible, pushed := eligible + [FindScholarship(ScholarshipDb, "AICTE-001")], pushed + ["AICTE-001"];
    }
    EligibleIdsByRule(income, edu);
    assert pushed == EligibleIds(income, edu);

    var unique := DedupInOrder(eligible);
    result := DropUndefined(unique);
    EligibleProperties(income, edu);
    RuleLookupsSucceed();
    LookupsOfDistinctIds(ScholarshipDb, eligible, pushed);
  }

  // ---------------------------------------------------------------------
  // Properties of the eligibility result
  // ---------------------------------------------------------------------

  /** No id twice; every id comes from a rule that fired; rule order kept. */
  lemma EligibleProperties(income: IncomeRange, edu: EducationLevel)
    ensures NoDuplicates(EligibleIds(income, edu))
    ensures forall id :: id in EligibleIds(income, edu) <==> id in RuleOrder && Grants(income, edu, id)
    ensures SubsequenceOf(EligibleIds(income, edu), RuleOrder)
  {
    EligibleIdsByRule(income, edu);
    RuleOrderDistinct();
    FilterDistinct(RuleOrder, GrantsFor(income, edu));
    FilterMembership(RuleOrder, GrantsFor(income, edu));
    FilterSubsequence(RuleOrder, GrantsFor(income, edu));
  }

  /** Low-income students always get NSP-001 and ST-001. */
  lemma LowIncomeScholarships(income: IncomeRange, edu: EducationLevel)
    requires LowIncome(income)
    ensures "NSP-001" in EligibleIds(income, edu) && "ST-001" in EligibleIds(income, edu)
  {
    EligibleIdsByRule(income, edu);
  }

  /** NSP-002 exactly for UG/PG, AICTE-001 exactly for Diploma/UG. */
  lemma EducationScholarships(income: IncomeRange, edu: EducationLevel)
    ensures "NSP-002" in EligibleIds(income, edu) <==> edu == UG || edu == PG
    ensures "AICTE-001" in EligibleIds(income, edu) <==> edu == Diploma || edu == UG
  {
    EligibleIdsByRule(income, edu);
  }

  /** A school student above the low-income bands matches nothing. */
  lemma NoScholarshipsForAffluentSchoolStudent(income: IncomeRange, edu: EducationLevel)
    requires income == Between2_5L8L || income == Above8L
    requires edu == School10 || edu == School12
    ensures EligibleIds(income, edu) == []
  {
    EligibleIdsByRule(income, edu);
  }

  // ---------------------------------------------------------------------
  // Courses and next steps
  // ---------------------------------------------------------------------

  predicate IsVocationalCourse(c: Course)
  {
    c.category == "Vocational" || c.platform == SkillIndia
  }

  predicate IsDegreeCourse(c: Course)
  {
    c.category == "Computer Science" || c.category == "Management"
  }

  /** `getRecommendedCourses`: a catalog filter chosen by education level,
      with the whole catalog as fallback. */
  function GetRecommendedCourses(profile: StudentProfile): (r: seq<Course>)
    ensures SubsequenceOf(r, CourseDb)
    ensures profile.educationLevel == School10 || profile.educationLevel == School12 ==>
      forall c :: c in r <==> c in CourseDb && IsVocationalCourse(c)
    ensures profile.educationLevel == UG || profile.educationLevel == PG ==>
      forall c :: c in r <==> c in CourseDb && IsDegreeCourse(c)
    ensures profile.educationLevel == Diploma ==> r == CourseDb
  {
    var edu := profile.educationLevel;
    if edu == School10 || edu == School12 then
      FilterMembership(CourseDb, IsVocationalCourse);
      FilterSubsequence(CourseDb, IsVocationalCourse);
      Filter(CourseDb, IsVocationalCourse)
    else if edu == UG || edu == PG then
      FilterMembership(CourseDb, IsDegreeCourse);
      FilterSubsequence(CourseDb, IsDegreeCourse);
      Filter(CourseDb, IsDegreeCourse)
    else
      assert SubsequenceOf(CourseDb, CourseDb) by { SubsequenceOfSelf(CourseDb); }
      CourseDb
  }

  lemma {:induction false} SubsequenceOfSelf<T>(s: seq<T>)
    ensures SubsequenceOf(s, s)
  {
    if s != [] {
      SubsequenceOfSelf(s[1..]);
    }
  }

  /** The concrete recommendation per level. */
  lemma RecommendedCourseIds(profile: StudentProfile)
    ensures var ids := Ids(GetRecommendedCourses(profile), CourseId);
      match profile.educationLevel
      case School10 | School12 => ids == ["NSDC-01", "SI-01"]
      case UG | PG => ids == ["SW-01", "NPTEL-01"]
      case Diploma => ids == ["SW-01", "NSDC-01", "NPTEL-01", "SI-01"]
  {
    var c := CourseDb;
    assert c[1..] == [c[1], c[2], c[3]];
    assert c[1..][1..] == [c[2], c[3]];
    assert c[1..][1..][1..] == [c[3]];
    assert c[1..][1..][1..][1..] == [];
  }

  const DefaultNextSteps: seq<string> := ["Upskilling", "Certification"]

  /** `getNextSteps`: a total lookup with a default arm. */
  function GetNextSteps(level: EducationLevel): (r: seq<string>)
    ensures |r| == 2 && r[0] != r[1]
    ensures r == DefaultNextSteps <==> level == PG
  {
    match level
    case School10 => ["Explore Diploma Courses in Engineering", "Prepare for Higher Secondary (Science/Commerce/Arts)"]
    case School12 => ["Apply for Undergraduate Programs (CUET)", "Check Vocational Training on Skill India"]
    case Diploma => ["Lateral Entry to B.Tech", "Apprenticeship under NAPS"]
    case UG => ["Post Graduate Entrance Exams (GATE/CAT)", "Industry Certification Courses"]
    case _ => DefaultNextSteps
  }
}
