/**
 * The interface language: one message table per language, the current
 * language (English at start), and `t`, which looks a message id up in the
 * current table and falls back to the id itself.
 *
 * Each table is written as the list of its message ids and the list of its
 * messages, position by position, in the order the tables list them.
 */
module Language {

  datatype Lang = En | Hi | Te

  /** The message ids of the English table. */
  const EnKeys: seq<string> := [
    "app.title", "app.subtitle", "app.description",
    "login.title", "login.description", "login.selectRole",
    "login.mobileNumber", "login.enterOtp", "login.sendOtp",
    "login.verifyLogin", "login.changeNumber", "login.selectedRole",
    "login.changeRole", "login.demoCredentials", "login.anyMobile",
    "role.farmer", "role.veterinarian", "role.regulator",
    "role.farmer.description", "role.veterinarian.description", "role.regulator.description",
    "layout.alerts", "layout.logout", "dashboard.overview",
    "dashboard.recentActivity", "dashboard.quickActions", "farmer.dashboard",
    "farmer.totalAnimals", "farmer.activeTreatments", "farmer.pendingAlerts",
    "farmer.complianceScore", "farmer.addTreatment", "farmer.viewReports",
    "farmer.manageAnimals", "treatment.add", "treatment.animal",
    "treatment.drug", "treatment.dosage", "treatment.frequency",
    "treatment.duration", "treatment.purpose", "treatment.save",
    "treatment.cancel", "treatment.status", "treatment.withdrawalPeriod",
    "treatment.daysRemaining", "treatment.completed", "treatment.active",
    "treatment.pending", "vet.dashboard", "vet.pendingApprovals",
    "vet.totalFarms", "vet.treatmentsApproved", "vet.reviewTreatments",
    "vet.manageFarms", "vet.uploadPrescription", "regulator.dashboard",
    "regulator.totalFarms", "regulator.complianceIssues", "regulator.monthlyReports",
    "regulator.generateReport", "regulator.viewTrends", "regulator.inspectFarms"
  ]

  /** The English messages, one for each id of `EnKeys`. */
  const EnMessages: seq<string> := [
    "Farm AMU Portal",
    "Digital Agriculture Management",
    "Antimicrobial Usage Management",
    "Login",
    "Select your role and login with mobile OTP",
    "Select Your Role",
    "Mobile Number",
    "Enter OTP",
    "Send OTP",
    "Verify & Login",
    "Change Number",
    "Selected Role:",
    "Change Role",
    "Demo Credentials:",
    "Any mobile number + OTP: 1234",
    "Farmer",
    "Veterinarian",
    "Regulator",
    "Record medicine usage",
    "Validate treatments",
    "Monitor compliance",
    "Alerts",
    "Logout",
    "Overview",
    "Recent Activity",
    "Quick Actions",
    "Farmer Dashboard",
    "Total Animals",
    "Active Treatments",
    "Pending Alerts",
    "Compliance Score",
    "Add Treatment",
    "View Reports",
    "Manage Animals",
    "Add New Treatment",
    "Animal",
    "Drug/Medicine",
    "Dosage",
    "Frequency",
    "Duration (days)",
    "Treatment Purpose",
    "Save Treatment",
    "Cancel",
    "Status",
    "Withdrawal Period",
    "days remaining",
    "Completed",
    "Active",
    "Pending Approval",
    "Veterinarian Dashboard",
    "Pending Approvals",
    "Total Farms",
    "Treatments Approved",
    "Review Treatments",
    "Manage Farms",
    "Upload Prescription",
    "Regulator Dashboard",
    "Total Farms Monitored",
    "Compliance Issues",
    "Monthly Reports",
    "Generate Report",
    "View Trends",
    "Inspect Farms"
  ]

  /** The message ids of the Hindi table. */
  const HiKeys: seq<string> := [
    "app.title", "app.subtitle", "app.description",
    "login.title", "login.description", "login.selectRole",
    "login.mobileNumber", "login.enterOtp", "login.sendOtp",
    "login.verifyLogin", "login.changeNumber", "login.selectedRole",
    "login.changeRole", "login.demoCredentials", "login.anyMobile",
    "role.farmer", "role.veterinarian", "role.regulator",
    "role.farmer.description", "role.veterinarian.description", "role.regulator.description",
    "layout.alerts", "layout.logout", "dashboard.overview",
    "dashboard.recentActivity", "dashboard.quickActions", "farmer.dashboard",
    "farmer.totalAnimals", "farmer.activeTreatments", "farmer.pendingAlerts",
    "farmer.complianceScore", "farmer.addTreatment", "farmer.viewReports",
    "farmer.manageAnimals", "treatment.add", "treatment.animal",
    "treatment.drug", "treatment.dosage", "treatment.frequency",
    "treatment.duration", "treatment.purpose", "treatment.save",
    "treatment.cancel", "treatment.status", "treatment.withdrawalPeriod",
    "treatment.daysRemaining", "treatment.completed", "treatment.active",
    "treatment.pending", "vet.dashboard", "vet.pendingApprovals",
    "vet.totalFarms", "vet.treatmentsApproved", "vet.reviewTreatments",
    "vet.manageFarms", "vet.uploadPrescription", "regulator.dashboard",
    "regulator.totalFarms", "regulator.complianceIssues", "regulator.monthlyReports",
    "regulator.generateReport", "regulator.viewTrends", "regulator.inspectFarms"
  ]

  /** The Hindi messages, one for each id of `HiKeys`. */
  const HiMessages: seq<string> := [
    "फार्म AMU पोर्टल",
    "डिजिटल कृषि प्रबंधन",
    "रोगाणुरोधी उपयोग प्रबंधन",
    "लॉगिन करें",
    "अपनी भूमिका चुनें और मोबाइल OTP से लॉगिन करें",
    "अपनी भूमिका चुनें",
    "मोबाइल नंबर",
    "OTP दर्ज करें",
    "OTP भेजें",
    "सत्यापित करें और लॉगिन करें",
    "नंबर बदलें",
    "चयनित भूमिका:",
    "भूमिका बदलें",
    "डेमो क्रेडेंशियल:",
    "कोई भी मोबाइल नंबर + OTP: 1234",
    "किसान",
    "पशु चिकित्सक",
    "नियामक",
    "दवा का रिकॉर्ड रखें",
    "उपचार की पुष्टि करें",
    "अनुपालन की निगरानी करें",
    "अलर्ट",
    "लॉगआउट",
    "सारांश",
    "हाल की गतिविधि",
    "त्वरित कार्य",
    "किसान डैशबोर्ड",
    "कुल पशु",
    "सक्रिय उपचार",
    "लंबित अलर्ट",
    "अनुपालन स्कोर",
    "उपचार जोड़ें",
    "रिपोर्ट देखें",
    "पशुओं का प्रबंधन",
    "नया उपचार जोड़ें",
    "पशु",
    "दवा",
    "खुराक",
    "आवृत्ति",
    "अवधि (दिन)",
    "उपचार का उद्देश्य",
    "उपचार सेव करें",
    "रद्द करें",
    "स्थिति",
    "निकासी अवधि",
    "दिन शेष",
    "पूर्ण",
    "सक्रिय",
    "अनुमोदन लंबित",
    "पशु चिकित्सक डैशबोर्ड",
    "लंबित अनुमोदन",
    "कुल फार्म",
    "स्वीकृत उपचार",
    "उपचार समीक्षा",
    "फार्म प्रबंधन",
    "प्रिस्क्रिप्शन अपलोड",
    "नियामक डैशबोर्ड",
    "कुल निगरानी फार्म",
    "अनुपालन मुद्दे",
    "मासिक रिपोर्ट",
    "रिपोर्ट बनाएं",
    "रुझान देखें",
    "फार्म निरीक्षण"
  ]

  /** The message ids of the Telugu table. */
  const TeKeys: seq<string> := [
    "app.title", "app.subtitle", "app.description",
    "login.title", "login.description", "login.selectRole",
    "login.mobileNumber", "login.enterOtp", "login.sendOtp",
    "login.verifyLogin", "login.changeNumber", "login.selectedRole",
    "login.changeRole", "login.demoCredentials", "login.anyMobile",
    "role.farmer", "role.veterinarian", "role.regulator",
    "role.farmer.description", "role.veterinarian.description", "role.regulator.description",
    "layout.alerts", "layout.logout", "dashboard.overview",
    "dashboard.recentActivity", "dashboard.quickActions", "farmer.dashboard",
    "farmer.totalAnimals", "farmer.activeTreatments", "farmer.pendingAlerts",
    "farmer.complianceScore", "farmer.addTreatment", "farmer.viewReports",
    "farmer.manageAnimals", "treatment.add", "treatment.animal",
    "treatment.drug", "treatment.dosage", "treatment.frequency",
    "treatment.duration", "treatment.purpose", "treatment.save",
    "treatment.cancel", "treatment.status", "treatment.withdrawalPeriod",
    "treatment.daysRemaining", "treatment.completed", "treatment.active",
    "treatment.pending", "vet.dashboard", "vet.pendingApprovals",
    "vet.totalFarms", "vet.treatmentsApproved", "vet.reviewTreatments",
    "vet.manageFarms", "vet.uploadPrescription", "regulator.dashboard",
    "regulator.totalFarms", "regulator.complianceIssues", "regulator.monthlyReports",
    "regulator.generateReport", "regulator.viewTrends", "regulator.inspectFarms"
  ]

  /** The Telugu messages, one for each id of `TeKeys`. */
  const TeMessages: seq<string> := [
    "వ్యవసాయ AMU పోర్టల్",
    "డిజిటల్ వ్యవసాయ నిర్వహణ",
    "యాంటీమైక్రోబియల్ వాడుక నిర్వహణ",
    "లాగిన్",
    "మీ పాత్రను ఎంచుకోండి మరియు మొబైల్ OTP తో లాగిన్ అవండి",
    "మీ పాత్రను ఎంచుకోండి",
    "మొబైల్ నంబర్",
    "OTP ఎంటర్ చేయండి",
    "OTP పంపండి",
    "ధృవీకరించి లాగిన్ అవండి",
    "నంబర్ మార్చండి",
    "ఎంచుకున్న పాత్র:",
    "పాత్రను మార్చండి",
    "డెమో క్రెడెన్షియల్స్:",
    "ఏదైనా మొబైల్ నంబర్ + OTP: 1234",
    "రైతు",
    "పశు వైద్యుడు",
    "నియంత్రకుడు",
    "మందుల రికార్డ్ ఉంచండి",
    "చికిత్సలను ధృవీకరించండి",
    "అనుపాలనను పర్యవేక్షించండి",
    "హెచ్చరికలు",
    "లాగ్అవుట్",
    "సమీక్ష",
    "ఇటీవలి కార్యకలాపాలు",
    "త్వరిత చర్యలు",
    "రైతు డ్యాష్‌బోర్డ్",
    "మొత్తం జంతువులు",
    "క్రియాశీల చికిత్సలు",
    "పెండింగ్ హెచ్చరికలు",
    "అనుపాలన స్కోర్",
    "చికిత్స జోడించండి",
    "నివేదికలను చూడండి",
    "జంతువులను నిర్వహించండి",
    "కొత్త చికిత్స జోడించండి",
    "జంతువు",
    "మందు",
    "మోతాదు",
    "ఫ్రీక్వెన్సీ",
    "వ్యవధి (రోజులు)",
    "చికిత్స ప్రయోజనం",
    "చికిత్స సేవ్ చేయండి",
    "రద్దు చేయండి",
    "స్థితి",
    "ఉపసంహరణ కాలం",
    "రోజులు మిగిలి ఉన్నాయి",
    "పూర్తయింది",
    "క్రియాశీలం",
    "ఆమోదం పెండింగ్",
    "పశు వైద్య డ్యాష్‌బోర్డ్",
    "పెండింగ్ ఆమోదాలు",
    "మొత్తం పొలాలు",
    "ఆమోదించిన చికిత్సలు",
    "చికిత్సల సమీక్ష",
    "పొలాల నిర్వహణ",
    "ప్రిస్క్రిప్షన్ అప్‌లోడ్",
    "నియంత్రక డ్యాష్‌బోర్డ్",
    "మొత్తం పర్యవేక్షణ పొలాలు",
    "అనుపాలన సమస్యలు",
    "నెలవారీ నివేదికలు",
    "నివేదిక రూపొందించండి",
    "ట్రెండ్‌లను చూడండి",
    "పొలాల తనిఖీ"
  ]

  /**
   * The object an object literal with these ids and messages denotes: each id
   * maps to its message, a later duplicate id overriding an earlier one.
   */
  function BuildTable(keys: seq<string>, messages: seq<string>): map<string, string>
    requires |keys| == |messages|
    decreases |keys|
  {
    if |keys| == 0 then map[]
    else BuildTable(keys[..|keys| - 1], messages[..|keys| - 1])[keys[|keys| - 1] := messages[|keys| - 1]]
  }

  /** A table defines exactly the ids it lists. */
  lemma {:induction false} BuildTableKeys(keys: seq<string>, messages: seq<string>)
    requires |keys| == |messages|
    ensures BuildTable(keys, messages).Keys == set k | k in keys
    decreases |keys|
  {
    if |keys| > 0 {
      BuildTableKeys(keys[..|keys| - 1], messages[..|keys| - 1]);
      assert keys == keys[..|keys| - 1] + [keys[|keys| - 1]];
    }
  }

  /** `translations[lang]` */
  function Table(lang: Lang): map<string, string> {
    match lang
    case En => BuildTable(EnKeys, EnMessages)
    case Hi => BuildTable(HiKeys, HiMessages)
    case Te => BuildTable(TeKeys, TeMessages)
  }

  /** The three tables define the same message ids. */
  lemma SameKeys()
    ensures Table(En).Keys == Table(Hi).Keys
    ensures Table(En).Keys == Table(Te).Keys
  {
    BuildTableKeys(EnKeys, EnMessages);
    BuildTableKeys(HiKeys, HiMessages);
    BuildTableKeys(TeKeys, TeMessages);
  }

  /**
   * `translations[lang][key] || key`: the message when the table has a
   * non-empty one for `key`, otherwise the key itself.
   */
  function Translate(lang: Lang, key: string): (r: string)
    ensures key in Table(lang) && Table(lang)[key] != "" ==> r == Table(lang)[key]
    ensures key !in Table(lang) ==> r == key
    ensures r == key || r in Table(lang).Values
  {
    if key in Table(lang) && Table(lang)[key] != "" then Table(lang)[key] else key
  }

  /** `LanguageProvider`: holds the current language. */
  class LanguageProvider {
    var language: Lang

    /** The provider starts in English. */
    constructor ()
      ensures language == En
    {
      language := En;
    }

    /** `setLanguage` changes the language and nothing else. */
    method SetLanguage(lang: Lang)
      modifies this
      ensures language == lang
    {
      language := lang;
    }

    /** `t(key)`: the key looked up in the current language's table. */
    function T(key: string): (r: string)
      reads this
      ensures key in Table(language) && Table(language)[key] != "" ==> r == Table(language)[key]
      ensures key !in Table(language) ==> r == key
    {
      Translate(language, key)
    }
  }
}
