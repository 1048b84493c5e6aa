/** The dataset the service ships with (app.py:93-240), minus the personal
    information and education records, and a few concrete checks against it. */
module Sample {
  import opened Seqs
  import opened Text
  import opened Portfolio
  import opened Queries

  const UrbanFinds := Project(
    "UrbanFinds", "AWS Projects",
    "Property Management on AWS: Built a property management platform using EC2, DynamoDB, IAM, and SNS for secure access, data handling, and alerts.",
    "https://github.com/Ravi-teja-777/UrbanFinds.git",
    ["AWS EC2", "DynamoDB", "AWS IAM", "AWS SNS"])

  const RoadBuddy := Project(
    "RoadBuddy", "AWS Projects",
    "Travel Assistance App on AWS: Developed an emergency service app (petrol, repair, food, rentals) using EC2, DynamoDB, IAM, and SNS for real-time updates.",
    "https://github.com/Ravi-teja-777/RoadBuddy.git",
    ["AWS EC2", "DynamoDB", "AWS IAM", "AWS SNS"])

  const MedTrack := Project(
    "MedTrack", "AWS Projects",
    "Patient-Doctor Portal on AWS: Created a healthcare portal with separate logins for doctors and patients using EC2, DynamoDB, IAM, and SNS.",
    "https://github.com/Ravi-teja-777/medtrack.git",
    ["AWS EC2", "DynamoDB", "AWS IAM", "AWS SNS"])

  const EmailSpamDetection := Project(
    "Email Spam Detection", "Machine Learning",
    "ML model for detecting spam emails using natural language processing and classification algorithms.",
    "https://github.com/Ravi-teja-777/Email_spam_detection-in-ML.git",
    ["Python", "NLP", "Scikit-learn", "Machine Learning"])

  function SampleData(): Dataset {
    Dataset(SampleSkills, SampleAchievements, SampleExperience, SampleProjects)
  }

  const SampleSkills: seq<Skill> :=
      [ Skill("Programming Languages", ["Python", "Java", "HTML", "CSS", "JavaScript"]),
        Skill("Frameworks & Tools", ["Flask", "Django", "FastAPI", "AWS", "GitHub"]),
        Skill("Data Tools", ["Power BI", "Pandas", "NumPy", "Matplotlib"]),
        Skill("Machine Learning", ["Supervised Learning", "Unsupervised Learning", "Feature Engineering", "Predictive Modeling"]),
        Skill("AI & ML", ["Model Deployment", "AI Model Optimization", "Prompt Engineering", "Deep Learning"]),
        Skill("Cloud Computing", ["AWS EC2", "AWS RDS", "AWS Rekognition", "AWS IAM", "AWS SNS"]) ]

  const SampleAchievements: seq<Achievement> :=
      [ Achievement("PAWS Certified Cloud Practitioner", "AWS", None),
        Achievement("Java Certification", "CodeTantra", None),
        Achievement("Python Certification", "NIT Calicut", None),
        Achievement("AIEEE Leadership Award", "Secretary", None),
        Achievement("IEI Leadership Award", "Treasurer", None),
        Achievement("Best Event Organizer Award", "College", None) ]

  const SampleExperience: seq<Experience> :=
      [ Experience(
          "AI & Machine Learning Intern", "The SmartBridge", "Jan 2025 – Present",
          "Currently working as an AI/ML intern, focusing on machine learning model development, optimization, and deployment using Python and AWS.") ]

  const SampleProjects: seq<Project> :=
      [ UrbanFinds,
        RoadBuddy,
        MedTrack,
        Project(
          "Wellness", "AWS Projects",
          "AWS-based wellness platform providing comprehensive health and wellness solutions with cloud infrastructure for scalability and reliability.",
          "https://github.com/Ravi-teja-777/Wellness.git",
          ["AWS", "Python", "Cloud Computing", "Health Tech"]),
        Project(
          "2D Architecture Design Generation", "Generative AI Projects",
          "AI-powered tool for generating architectural designs based on user specifications using advanced generative AI techniques.",
          "https://github.com/Ravi-teja-777/2d-architecture-planer.git",
          ["Python", "Generative AI", "Deep Learning"]),
        Project(
          "PocketSmart", "Generative AI Projects",
          "An AI-powered assistant that offers personalized suggestions for products like interiors, jewelry, and party planning based on your budget, with a built-in history tracking feature.",
          "https://github.com/Ravi-teja-777/Wellness.git",
          ["Python", "AI", "Machine Learning"]),
        Project(
          "Skin Cancer Detection", "Django Project",
          "A Django web app that classifies skin lesions using deep learning for early and accurate diagnosis.",
          "https://github.com/Ravi-teja-777/Wellness.git",
          ["Django", "Deep Learning", "Python", "CNN"]),
        EmailSpamDetection,
        Project(
          "Wine Quality Detection", "Machine Learning",
          "Machine learning model to predict wine quality based on chemical properties and characteristics.",
          "https://github.com/Ravi-teja-777/Wine_Quaility_Detection_in_ML.git",
          ["Python", "Machine Learning", "Data Analysis"]),
        Project(
          "Power Plant Output Prediction", "Machine Learning",
          "Prediction of Full Load Electrical Power Output of a Base Load Operated Combined Cycle Power Plant using machine learning algorithms.",
          "https://github.com/Ravi-teja-777/Prediction-of-Full-Load-Electrical-Power-Output-of-a-Base-Load-Operated-Combined-Cycle-Power-Plant.git",
          ["Python", "Machine Learning", "Regression", "Data Science"]),
        Project(
          "Insurance Prediction", "Machine Learning",
          "Insurance premium prediction system using Logistic Regression to analyze customer data and predict insurance costs based on various demographic and health factors.",
          "https://github.com/Ravi-teja-777/Insurance_prdiction_LogisticRegression.git",
          ["Python", "Logistic Regression", "Machine Learning", "Data Analysis", "Scikit-learn"]),
        Project(
          "Home Prices Prediction", "Machine Learning",
          "Real estate price prediction model using Linear Regression to forecast home prices based on location, size, amenities, and market trends.",
          "https://github.com/Ravi-teja-777/home_prices_prediction_using_LinearRegression.git",
          ["Python", "Linear Regression", "Machine Learning", "Real Estate", "Data Science"]) ]

  lemma LowerAws()
    ensures Lower("AWS") == "aws"
  {
  }

  /** "AWS EC2" mentions the lowercased query "aws". */
  lemma AwsEc2MentionsAws()
    ensures Mentions("AWS EC2", "aws")
  {
    var tech := Lower("AWS EC2");
    assert tech[0..3] == "aws";
    assert OccursAt(tech, "aws", 0);
  }

  lemma FoundBySearch(d: Dataset, q: string, p: Project)
    requires p in d.projects && ProjectMatches(p, Lower(q))
    ensures p in Search(d, q).results.projects
  {
  }

  // The checks below take the dataset as a parameter equal to SampleData()
  // rather than naming SampleData() in their conclusions: applied to the
  // literal directly, the queries would be unfolded over every entry.

  /** Searching the shipped dataset for "AWS" finds UrbanFinds, RoadBuddy
      and MedTrack, each of which lists the technology "AWS EC2". */
  lemma SampleAwsSearch(d: Dataset)
    requires d == SampleData()
    ensures UrbanFinds in Search(d, "AWS").results.projects
    ensures RoadBuddy in Search(d, "AWS").results.projects
    ensures MedTrack in Search(d, "AWS").results.projects
  {
    assert d.projects == SampleProjects;
    assert SampleProjects[0] == UrbanFinds && SampleProjects[1] == RoadBuddy && SampleProjects[2] == MedTrack;
    LowerAws();
    AwsEc2MentionsAws();
    assert "AWS EC2" in UrbanFinds.technologies;
    assert "AWS EC2" in RoadBuddy.technologies;
    assert "AWS EC2" in MedTrack.technologies;
    FoundBySearch(d, "AWS", UrbanFinds);
    FoundBySearch(d, "AWS", RoadBuddy);
    FoundBySearch(d, "AWS", MedTrack);
  }

  /** The four distinct labels of the shipped projects. */
  lemma SampleLabels()
    ensures CategoryLabels(SampleProjects) ==
              {"AWS Projects", "Generative AI Projects", "Django Project", "Machine Learning"}
  {
    var ps := SampleProjects;
    var labels := {"AWS Projects", "Generative AI Projects", "Django Project", "Machine Learning"};
    assert forall i :: 0 <= i < |ps| ==> ps[i].category in labels;
    forall c | c in CategoryLabels(ps)
      ensures c in labels
    {
      var p :| p in ps && p.category == c;
      var i :| 0 <= i < |ps| && ps[i] == p;
    }
    assert ps[0] in ps && ps[4] in ps && ps[6] in ps && ps[7] in ps;
  }

  /** The statistics of the shipped dataset. */
  lemma SampleStats(d: Dataset)
    requires d == SampleData()
    ensures PortfolioStats(d).totalProjects == 12
    ensures PortfolioStats(d).projectCategories == 4
    ensures PortfolioStats(d).skillsCount == 27
    ensures PortfolioStats(d).achievementsCount == 6
    ensures PortfolioStats(d).currentPosition == Some("AI & Machine Learning Intern")
  {
    SampleCategoryCount(d);
    SampleSkillCount(d);
  }

  lemma SampleCategoryCount(d: Dataset)
    requires d == SampleData()
    ensures PortfolioStats(d).projectCategories == 4
  {
    SampleLabels();
  }

  lemma SampleSkillCount(d: Dataset)
    requires d == SampleData()
    ensures PortfolioStats(d).skillsCount == 27
  {
    assert SkillsCount(SampleSkills) == 27;
  }

  lemma FoundByCategory(d: Dataset, category: string, p: Project)
    requires p in d.projects && InCategory(p, category)
    ensures ProjectsByCategory(d, category).Ok?
    ensures p in ProjectsByCategory(d, category).value.projects
  {
  }

  lemma MachineLearningLowercased()
    ensures InCategory(EmailSpamDetection, "machine learning")
  {
    assert Lower("Machine Learning") == "machine learning";
    NormalizeIgnoresCase("Machine Learning");
  }

  /** The lowercased name "machine learning" selects the projects stored
      under "Machine Learning", EmailSpamDetection among them. */
  lemma SampleLowercaseCategory(d: Dataset)
    requires d == SampleData()
    ensures ProjectsByCategory(d, "machine learning").Ok?
    ensures EmailSpamDetection in ProjectsByCategory(d, "machine learning").value.projects
  {
    assert d.projects == SampleProjects;
    assert SampleProjects[7] == EmailSpamDetection;
    MachineLearningLowercased();
    FoundByCategory(d, "machine learning", EmailSpamDetection);
  }
}
