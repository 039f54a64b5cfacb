/** The shared vocabulary of the application: the closed enumerations of
    the profile form, the student profile, and the catalog records. */
module Types {
  import opened Common

  datatype EducationLevel = School10 | School12 | Diploma | UG | PG
  {
    /** The enum's string value, which is what the legacy script compares. */
    function Label(): string
    {
      match this
      case School10 => "Class 10"
      case School12 => "Class 12"
      case Diploma => "Diploma"
      case UG => "Undergraduate"
      case PG => "Postgraduate"
    }
  }

  datatype State = Delhi | Maharashtra | UttarPradesh | Karnataka | OtherState

  datatype IncomeRange = Below1L | Between1L2_5L | Between2_5L8L | Above8L
  {
    function Label(): string
    {
      match this
      case Below1L => "Below 1 Lakh"
      case Between1L2_5L => "1 Lakh - 2.5 Lakhs"
      case Between2_5L8L => "2.5 Lakhs - 8 Lakhs"
      case Above8L => "Above 8 Lakhs"
    }
  }

  /** The `platform` union of a course. */
  datatype Platform = Swayam | Nptel | SkillIndia | Nsdc

  /** A student profile; it carries the verification token, never the
      Aadhaar number. */
  datatype StudentProfile = StudentProfile(
    verificationToken: string,
    name: string,
    educationLevel: EducationLevel,
    state: State,
    district: string,
    incomeRange: IncomeRange,
    interests: seq<string>)

  datatype Scholarship = Scholarship(
    id: string,
    name: string,
    provider: string,
    amount: string,
    deadline: string,
    eligibilityDescription: string,
    tags: seq<string>)

  datatype Course = Course(
    id: string,
    title: string,
    platform: Platform,
    duration: string,
    certification: bool,
    category: string)

  datatype UserData = UserData(name: string, state: string)

  /** The reply of the identity service; absent optional members are `None`. */
  datatype AadhaarResponse = AadhaarResponse(
    success: bool,
    token: Option<string>,
    userData: Option<UserData>,
    message: Option<string>)

  function ScholarshipId(s: Scholarship): string
  {
    s.id
  }

  function CourseId(c: Course): string
  {
    c.id
  }
}
