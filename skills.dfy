/** The skill matcher: which entries of a fixed vocabulary a résumé mentions. */
module Skills {
  import opened Wrappers
  import opened Text

  /** The known skills, in the order the vocabulary lists them, one group per line of the listing. */
  const CommonSkills: seq<string> :=
    SkillLine1 + SkillLine2 + SkillLine3 + SkillLine4 + SkillLine5 + SkillLine6 + SkillLine7 + SkillLine8

  const SkillLine1: seq<string> := ["Python", "Java", "JavaScript", "SQL", "NoSQL", "Machine Learning"]
  const SkillLine2: seq<string> := ["Data Science", "React", "Angular", "Vue", "Node.js", "AWS"]
  const SkillLine3: seq<string> := ["Azure", "Google Cloud", "Docker", "Kubernetes", "TensorFlow"]
  const SkillLine4: seq<string> := ["PyTorch", "Flask", "Django", "Spring", "Git", "CI/CD", "REST API"]
  const SkillLine5: seq<string> := ["GraphQL", "TypeScript", "HTML", "CSS", "SASS", "Redux", "MongoDB"]
  const SkillLine6: seq<string> := ["PostgreSQL", "MySQL", "Firebase", "Linux", "Bash", "Pandas"]
  const SkillLine7: seq<string> := ["NumPy", "Scikit-learn", "Keras", "Spark", "Hadoop", "Tableau"]
  const SkillLine8: seq<string> := ["Power BI", "Excel", "Agile", "Scrum", "JIRA", "Jenkins", "Ansible"]

  /** A skill name that starts and ends with a word character, so that `\b` on either side means "not inside a longer word". */
  predicate WordDelimited(s: string) {
    |s| > 0 && IsWordChar(s[0]) && IsWordChar(s[|s| - 1])
  }

  lemma Line1WordDelimited()
    ensures forall s :: s in SkillLine1 ==> WordDelimited(s)
  {
  }

  lemma Line2WordDelimited()
    ensures forall s :: s in SkillLine2 ==> WordDelimited(s)
  {
  }

  lemma Line3WordDelimited()
    ensures forall s :: s in SkillLine3 ==> WordDelimited(s)
  {
  }

  lemma Line4WordDelimited()
    ensures forall s :: s in SkillLine4 ==> WordDelimited(s)
  {
  }

  lemma Line5WordDelimited()
    ensures forall s :: s in SkillLine5 ==> WordDelimited(s)
  {
  }

  lemma Line6WordDelimited()
    ensures forall s :: s in SkillLine6 ==> WordDelimited(s)
  {
  }

  lemma Line7WordDelimited()
    ensures forall s :: s in SkillLine7 ==> WordDelimited(s)
  {
  }

  lemma Line8WordDelimited()
    ensures forall s :: s in SkillLine8 ==> WordDelimited(s)
  {
  }

  /** Every vocabulary entry starts and ends with a word character. */
  lemma VocabularyWordDelimited()
    ensures forall s :: s in CommonSkills ==> WordDelimited(s)
  {
    Line1WordDelimited();
    Line2WordDelimited();
    Line3WordDelimited();
    Line4WordDelimited();
    Line5WordDelimited();
    Line6WordDelimited();
    Line7WordDelimited();
    Line8WordDelimited();
  }

  /**
   * `\b skill \b`, with `skill` lower-cased, matches somewhere in the
   * lower-cased text: the test that decides whether a skill is reported.
   */
  predicate MentionsWord(normalized: string, skill: string) {
    Find(normalized, Lower(skill), 0, true).Some?
  }

  /**
   * The matcher over a given vocabulary: no skills for a missing or empty
   * text, otherwise each entry whose lower-case form matches the lower-cased
   * text as a whole word.
   */
  function SkillsIn(vocabulary: seq<string>, resumeText: Option<string>): (skills: set<string>)
    ensures forall s :: s in skills ==> s in vocabulary
    ensures resumeText == None || resumeText == Some("") ==> skills == {}
  {
    if resumeText.None? || resumeText.value == "" then {}
    else
      var normalized := Lower(resumeText.value);
      set s | s in vocabulary && MentionsWord(normalized, s)
  }

  /** The skill matcher: the entries of the fixed vocabulary that the résumé mentions. */
  function ExtractSkills(resumeText: Option<string>): (skills: set<string>)
    ensures forall s :: s in skills ==> s in CommonSkills
    ensures resumeText == None || resumeText == Some("") ==> skills == {}
  {
    SkillsIn(CommonSkills, resumeText)
  }

  /** Lower-casing keeps a word-delimited name word-delimited. */
  lemma LowerWordDelimited(skill: string)
    requires WordDelimited(skill)
    ensures WordDelimited(Lower(skill))
  {
  }

  /**
   * A word-delimited skill is reported exactly when it is in the vocabulary
   * and its lower-case form occurs in the lower-cased text as a whole word,
   * with a non-word character (or the end of the text) on each side.
   */
  lemma ReportedIn(vocabulary: seq<string>, text: string, skill: string)
    requires WordDelimited(skill)
    ensures skill in SkillsIn(vocabulary, Some(text)) <==>
              skill in vocabulary && exists i: nat :: WholeWordAt(Lower(text), Lower(skill), i)
  {
    LowerWordDelimited(skill);
    FindWholeWord(Lower(text), Lower(skill));
    if text == "" {
      assert forall i: nat :: !OccursAt(Lower(text), Lower(skill), i);
    }
  }

  /**
   * A vocabulary skill is reported exactly when its lower-case form occurs in
   * the lower-cased text as a whole word, with a non-word character (or the
   * end of the text) on each side.
   */
  lemma SkillReported(text: string, skill: string)
    ensures skill in ExtractSkills(Some(text)) <==>
              skill in CommonSkills && exists i: nat :: WholeWordAt(Lower(text), Lower(skill), i)
  {
    if WordDelimited(skill) {
      ReportedIn(CommonSkills, text, skill);
    } else {
      VocabularyWordDelimited();
    }
  }

  /** Only the lower-case view of the text matters: texts that agree when lower-cased yield the same skills. */
  lemma CaseInsensitive(vocabulary: seq<string>, text1: string, text2: string)
    requires Lower(text1) == Lower(text2)
    ensures SkillsIn(vocabulary, Some(text1)) == SkillsIn(vocabulary, Some(text2))
  {
    assert |text1| == |text2|;
  }

  /** Lower-casing the résumé first changes nothing. */
  lemma LowerFirstChangesNothing(text: string)
    ensures ExtractSkills(Some(Lower(text))) == ExtractSkills(Some(text))
  {
    LowerIdempotent(text);
    CaseInsensitive(CommonSkills, Lower(text), text);
  }

  /**
   * A word-delimited skill whose every occurrence is preceded or followed by
   * a word character, so that it sits inside a longer word, is not reported.
   */
  lemma InsideLongerWordNotReported(vocabulary: seq<string>, text: string, skill: string)
    requires WordDelimited(skill)
    requires forall i: nat :: OccursAt(Lower(text), Lower(skill), i) ==>
               (0 < i <= |text| && IsWordChar(Lower(text)[i - 1])) ||
               (i + |skill| < |text| && IsWordChar(Lower(text)[i + |skill|]))
    ensures skill !in SkillsIn(vocabulary, Some(text))
  {
    ReportedIn(vocabulary, text, skill);
  }

  /**
   * A word-delimited vocabulary skill written as a word of its own, in any
   * letter case, is reported: nothing but a non-word character (or the end
   * of the text) may stand right before and right after it.
   */
  lemma StandaloneSkillReported(vocabulary: seq<string>, before: string, written: string, after: string, skill: string)
    requires skill in vocabulary && WordDelimited(skill) && Lower(written) == Lower(skill)
    requires before == "" || !IsWordChar(before[|before| - 1])
    requires after == "" || !IsWordChar(after[0])
    ensures skill in SkillsIn(vocabulary, Some(before + written + after))
  {
    var text := before + written + after;
    var i := |before|;
    LowerConcat(before, written);
    LowerConcat(before + written, after);
    assert Lower(text) == Lower(before) + Lower(skill) + Lower(after);
    assert Lower(text)[i..i + |skill|] == Lower(skill);
    assert WholeWordAt(Lower(text), Lower(skill), i);
    ReportedIn(vocabulary, text, skill);
  }

  /** "Java" is not reported for a text that mentions only "JavaScript", which is. */
  lemma JavaIsNotJavaScript()
    ensures "JavaScript" in ExtractSkills(Some("JavaScript"))
    ensures "Java" !in ExtractSkills(Some("JavaScript"))
  {
    assert "" + "JavaScript" + "" == "JavaScript";
    StandaloneSkillReported(CommonSkills, "", "JavaScript", "", "JavaScript");
    assert "JavaScript" == "Java" + "Script";
    LowerConcat("Java", "Script");
    var t, p := Lower("JavaScript"), Lower("Java");
    assert p == "java" && t[0] == 'j' && t[4] == 's';
    assert forall k :: 0 < k < |t| ==> t[k] != 'j';
    forall i: nat | OccursAt(t, p, i)
      ensures i + 4 < |t| && IsWordChar(t[i + 4])
    {
      assert t[i] == t[i..i + 4][0];
    }
    InsideLongerWordNotReported(CommonSkills, "JavaScript", "Java");
  }

  /** Every character of a reported skill, lower-cased, occurs in the lower-cased text. */
  lemma ReportedCharOccurs(vocabulary: seq<string>, text: string, skill: string, k: nat)
    requires k < |skill|
    ensures skill in SkillsIn(vocabulary, Some(text)) ==> LowerChar(skill[k]) in Lower(text)
  {
    if skill in SkillsIn(vocabulary, Some(text)) {
      var i := Find(Lower(text), Lower(skill), 0, true).value;
      assert Lower(text)[i..i + |skill|][k] == Lower(text)[i + k];
    }
  }

  /** Two adjacent characters of a reported skill, lower-cased, are adjacent in the lower-cased text. */
  lemma ReportedPairOccurs(vocabulary: seq<string>, text: string, skill: string, k: nat)
    requires k + 1 < |skill|
    ensures skill in SkillsIn(vocabulary, Some(text)) ==> !PairFree(Lower(text), LowerChar(skill[k]), LowerChar(skill[k + 1]))
  {
    if skill in SkillsIn(vocabulary, Some(text)) {
      var i := Find(Lower(text), Lower(skill), 0, true).value;
      assert Lower(text)[i..i + |skill|][k] == Lower(text)[i + k];
      assert Lower(text)[i..i + |skill|][k + 1] == Lower(text)[i + k + 1];
    }
  }

  /** The sample résumé line "Experienced in Python, React and AWS development", piece by piece. */
  const Sample: string := "Experienced in " + "Python" + ", " + "React" + " and " + "AWS" + " development"

  /** The sample line reports Python. */
  lemma SamplePython()
    ensures "Python" in ExtractSkills(Some(Sample))
  {
    assert Sample == "Experienced in " + "Python" + (", " + "React" + " and " + "AWS" + " development");
    StandaloneSkillReported(CommonSkills, "Experienced in ", "Python", ", " + "React" + " and " + "AWS" + " development", "Python");
  }

  /** The sample line reports React. */
  lemma SampleReact()
    ensures "React" in ExtractSkills(Some(Sample))
  {
    assert Sample == ("Experienced in " + "Python" + ", ") + "React" + (" and " + "AWS" + " development");
    StandaloneSkillReported(CommonSkills, "Experienced in " + "Python" + ", ", "React", " and " + "AWS" + " development", "React");
  }

  /** The sample line reports AWS. */
  lemma SampleAws()
    ensures "AWS" in ExtractSkills(Some(Sample))
  {
    StandaloneSkillReported(CommonSkills, "Experienced in " + "Python" + ", " + "React" + " and ", "AWS", " development", "AWS");
  }

  /** The sample line, lower-cased, piece by piece as the sample itself is built. */
  const SampleLower: string := "experienced in " + "python" + ", " + "react" + " and " + "aws" + " development"

  lemma SampleLowered()
    ensures Lower(Sample) == SampleLower
  {
    assert Lower("Experienced in ") == "experienced in ";
    assert Lower("Python") == "python";
    assert Lower("React") == "react";
    assert Lower("AWS") == "aws";
    assert Lower(" development") == " development";
    LowerConcat("Experienced in ", "Python");
    LowerConcat("Experienced in " + "Python", ", ");
    LowerConcat("Experienced in " + "Python" + ", ", "React");
    LowerConcat("Experienced in " + "Python" + ", " + "React", " and ");
    LowerConcat("Experienced in " + "Python" + ", " + "React" + " and ", "AWS");
    LowerConcat("Experienced in " + "Python" + ", " + "React" + " and " + "AWS", " development");
  }

  /** A pair of characters other than a space, absent from every piece of the lower-cased sample, is absent from it. */
  lemma SamplePairFree(a: char, b: char)
    requires a != ' ' && b != ' ' && !(a == 'n' && b == ',')
    requires PairFree("experienced in ", a, b) && PairFree("python", a, b) && PairFree("react", a, b)
    requires PairFree(" and ", a, b) && PairFree("aws", a, b) && PairFree(" development", a, b)
    ensures PairFree(Lower(Sample), a, b)
  {
    SampleLowered();
    PairFreeConcat("experienced in ", "python", a, b);
    PairFreeConcat("experienced in " + "python", ", ", a, b);
    PairFreeConcat("experienced in " + "python" + ", ", "react", a, b);
    PairFreeConcat("experienced in " + "python" + ", " + "react", " and ", a, b);
    PairFreeConcat("experienced in " + "python" + ", " + "react" + " and ", "aws", a, b);
    PairFreeConcat("experienced in " + "python" + ", " + "react" + " and " + "aws", " development", a, b);
  }

  /** Characters the lower-cased sample lacks. */
  lemma SampleLacks(c: char)
    requires c in "jqgzkfub./"
    ensures c !in SampleLower
  {
    assert c !in "experienced in " && c !in "python" && c !in ", " && c !in "react";
    assert c !in " and " && c !in "aws" && c !in " development";
  }

  /** A skill holding a character the lower-cased sample lacks is not reported for it. */
  lemma SampleLacksChar(skill: string, k: nat, c: char)
    requires k < |skill| && LowerChar(skill[k]) == c && c in "jqgzkfub./"
    ensures skill !in ExtractSkills(Some(Sample))
  {
    SampleLowered();
    SampleLacks(c);
    ReportedCharOccurs(CommonSkills, Sample, skill, k);
  }

  /** A skill holding two adjacent characters never adjacent in the lower-cased sample is not reported for it. */
  lemma SampleLacksPair(skill: string, k: nat, a: char, b: char)
    requires k + 1 < |skill| && LowerChar(skill[k]) == a && LowerChar(skill[k + 1]) == b
    requires [a, b] in ["da", "to", "es", "ty", "ht", "cs", "sa", "pa", "ha", "xc"]
    ensures skill !in ExtractSkills(Some(Sample))
  {
    SamplePairFree(a, b);
    ReportedPairOccurs(CommonSkills, Sample, skill, k);
  }

  /** No other entry of vocabulary line 1 is reported for the sample. */
  lemma SampleLine1()
    ensures "Java" !in ExtractSkills(Some(Sample)) && "JavaScript" !in ExtractSkills(Some(Sample))
    ensures "SQL" !in ExtractSkills(Some(Sample)) && "NoSQL" !in ExtractSkills(Some(Sample))
    ensures "Machine Learning" !in ExtractSkills(Some(Sample))
  {
    SampleLacksChar("Java", 0, 'j');
    SampleLacksChar("JavaScript", 0, 'j');
    SampleLacksChar("SQL", 1, 'q');
    SampleLacksChar("NoSQL", 3, 'q');
    SampleLacksChar("Machine Learning", 15, 'g');
  }

  /** No other entry of vocabulary line 2 is reported for the sample. */
  lemma SampleLine2()
    ensures "Data Science" !in ExtractSkills(Some(Sample)) && "Angular" !in ExtractSkills(Some(Sample))
    ensures "Vue" !in ExtractSkills(Some(Sample)) && "Node.js" !in ExtractSkills(Some(Sample))
  {
    SampleLacksPair("Data Science", 0, 'd', 'a');
    SampleLacksChar("Angular", 2, 'g');
    SampleLacksChar("Vue", 1, 'u');
    SampleLacksChar("Node.js", 4, '.');
  }

  /** No other entry of vocabulary line 3 is reported for the sample. */
  lemma SampleLine3()
    ensures "Azure" !in ExtractSkills(Some(Sample)) && "Google Cloud" !in ExtractSkills(Some(Sample))
    ensures "Docker" !in ExtractSkills(Some(Sample)) && "Kubernetes" !in ExtractSkills(Some(Sample))
    ensures "TensorFlow" !in ExtractSkills(Some(Sample))
  {
    SampleLacksChar("Azure", 1, 'z');
    SampleLacksChar("Google Cloud", 0, 'g');
    SampleLacksChar("Docker", 3, 'k');
    SampleLacksChar("Kubernetes", 0, 'k');
    SampleLacksChar("TensorFlow", 6, 'f');
  }

  /** No other entry of vocabulary line 4 is reported for the sample. */
  lemma SampleLine4()
    ensures "PyTorch" !in ExtractSkills(Some(Sample)) && "Flask" !in ExtractSkills(Some(Sample))
    ensures "Django" !in ExtractSkills(Some(Sample)) && "Spring" !in ExtractSkills(Some(Sample))
    ensures "Git" !in ExtractSkills(Some(Sample)) && "CI/CD" !in ExtractSkills(Some(Sample))
    ensures "REST API" !in ExtractSkills(Some(Sample))
  {
    SampleLacksPair("PyTorch", 2, 't', 'o');
    SampleLacksChar("Flask", 0, 'f');
    SampleLacksChar("Django", 1, 'j');
    SampleLacksChar("Spring", 5, 'g');
    SampleLacksChar("Git", 0, 'g');
    SampleLacksChar("CI/CD", 2, '/');
    SampleLacksPair("REST API", 1, 'e', 's');
  }

  /** No other entry of vocabulary line 5 is reported for the sample. */
  lemma SampleLine5()
    ensures "GraphQL" !in ExtractSkills(Some(Sample)) && "TypeScript" !in ExtractSkills(Some(Sample))
    ensures "HTML" !in ExtractSkills(Some(Sample)) && "CSS" !in ExtractSkills(Some(Sample))
    ensures "SASS" !in ExtractSkills(Some(Sample)) && "Redux" !in ExtractSkills(Some(Sample))
    ensures "MongoDB" !in ExtractSkills(Some(Sample))
  {
    SampleLacksChar("GraphQL", 0, 'g');
    SampleLacksPair("TypeScript", 0, 't', 'y');
    SampleLacksPair("HTML", 0, 'h', 't');
    SampleLacksPair("CSS", 0, 'c', 's');
    SampleLacksPair("SASS", 0, 's', 'a');
    SampleLacksChar("Redux", 3, 'u');
    SampleLacksChar("MongoDB", 3, 'g');
  }

  /** No other entry of vocabulary line 6 is reported for the sample. */
  lemma SampleLine6()
    ensures "PostgreSQL" !in ExtractSkills(Some(Sample)) && "MySQL" !in ExtractSkills(Some(Sample))
    ensures "Firebase" !in ExtractSkills(Some(Sample)) && "Linux" !in ExtractSkills(Some(Sample))
    ensures "Bash" !in ExtractSkills(Some(Sample)) && "Pandas" !in ExtractSkills(Some(Sample))
  {
    SampleLacksChar("PostgreSQL", 4, 'g');
    SampleLacksChar("MySQL", 3, 'q');
    SampleLacksChar("Firebase", 0, 'f');
    SampleLacksChar("Linux", 3, 'u');
    SampleLacksChar("Bash", 0, 'b');
    SampleLacksPair("Pandas", 0, 'p', 'a');
  }

  /** No other entry of vocabulary line 7 is reported for the sample. */
  lemma SampleLine7()
    ensures "NumPy" !in ExtractSkills(Some(Sample)) && "Scikit-learn" !in ExtractSkills(Some(Sample))
    ensures "Keras" !in ExtractSkills(Some(Sample)) && "Spark" !in ExtractSkills(Some(Sample))
    ensures "Hadoop" !in ExtractSkills(Some(Sample)) && "Tableau" !in ExtractSkills(Some(Sample))
  {
    SampleLacksChar("NumPy", 1, 'u');
    SampleLacksChar("Scikit-learn", 3, 'k');
    SampleLacksChar("Keras", 0, 'k');
    SampleLacksChar("Spark", 4, 'k');
    SampleLacksPair("Hadoop", 0, 'h', 'a');
    SampleLacksChar("Tableau", 2, 'b');
  }

  /** No other entry of vocabulary line 8 is reported for the sample. */
  lemma SampleLine8()
    ensures "Power BI" !in ExtractSkills(Some(Sample)) && "Excel" !in ExtractSkills(Some(Sample))
    ensures "Agile" !in ExtractSkills(Some(Sample)) && "Scrum" !in ExtractSkills(Some(Sample))
    ensures "JIRA" !in ExtractSkills(Some(Sample)) && "Jenkins" !in ExtractSkills(Some(Sample))
    ensures "Ansible" !in ExtractSkills(Some(Sample))
  {
    SampleLacksChar("Power BI", 6, 'b');
    SampleLacksPair("Excel", 1, 'x', 'c');
    SampleLacksChar("Agile", 1, 'g');
    SampleLacksChar("Scrum", 3, 'u');
    SampleLacksChar("JIRA", 0, 'j');
    SampleLacksChar("Jenkins", 0, 'j');
    SampleLacksChar("Ansible", 4, 'b');
  }

  /** The sample line reports nothing but Python, React and AWS: every other entry is excluded line by line. */
  lemma SampleOnly()
    ensures forall skill :: skill in ExtractSkills(Some(Sample)) ==> skill == "Python" || skill == "React" || skill == "AWS"
  {
    forall skill | skill in ExtractSkills(Some(Sample)) ensures skill == "Python" || skill == "React" || skill == "AWS" {
      assert skill in CommonSkills;
      if skill in SkillLine1 {
        SampleLine1();
      } else if skill in SkillLine2 {
        SampleLine2();
      } else if skill in SkillLine3 {
        SampleLine3();
      } else if skill in SkillLine4 {
        SampleLine4();
      } else if skill in SkillLine5 {
        SampleLine5();
      } else if skill in SkillLine6 {
        SampleLine6();
      } else if skill in SkillLine7 {
        SampleLine7();
      } else {
        SampleLine8();
      }
    }
  }

  /** The sample line reports exactly Python, React and AWS. */
  lemma SampleSkills()
    ensures ExtractSkills(Some(Sample)) == {"Python", "React", "AWS"}
  {
    SamplePython();
    SampleReact();
    SampleAws();
    SampleOnly();
  }
}
