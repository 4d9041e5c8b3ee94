/**
  The language cheat sheet: the phrase list of the selected language, narrowed by a
  category tab and a search over the English text and the translation, and the list of
  category tabs derived from the phrases.
 */
module LanguageCheatSheet {
  import opened Lists
  import opened Text

  datatype Phrase = Phrase(category: string, english: string, translation: string, pronunciation: string)

  const AllCategories := "all"

  const French: seq<Phrase> := [
    Phrase("greetings", "Hello", "Bonjour", "bohn-zhoor"),
    Phrase("greetings", "Goodbye", "Au revoir", "oh ruh-vwahr"),
    Phrase("greetings", "Thank you", "Merci", "mehr-see"),
    Phrase("greetings", "Please", "S'il vous plaît", "seel voo pleh"),
    Phrase("greetings", "Excuse me", "Excusez-moi", "ex-koo-zay mwah"),
    Phrase("dining", "The bill, please", "L'addition, s'il vous plaît", "lah-dee-see-ohn seel voo pleh"),
    Phrase("dining", "I would like...", "Je voudrais...", "zhuh voo-dreh"),
    Phrase("dining", "Delicious!", "Délicieux!", "day-lee-syuh"),
    Phrase("transportation", "Where is...?", "Où est...?", "oo eh"),
    Phrase("transportation", "How much is it?", "Combien ça coûte?", "kohm-bee-ehn sah koot"),
    Phrase("emergency", "Help!", "Au secours!", "oh suh-koor"),
    Phrase("emergency", "I need a doctor", "J'ai besoin d'un médecin", "zhay buh-zwahn dun may-duh-san")]

  const Spanish: seq<Phrase> := [
    Phrase("greetings", "Hello", "Hola", "oh-lah"),
    Phrase("greetings", "Goodbye", "Adiós", "ah-dee-ohs"),
    Phrase("greetings", "Thank you", "Gracias", "grah-see-ahs"),
    Phrase("greetings", "Please", "Por favor", "por fah-vor"),
    Phrase("greetings", "Excuse me", "Disculpe", "dees-kool-peh"),
    Phrase("dining", "The bill, please", "La cuenta, por favor", "lah kwen-tah por fah-vor"),
    Phrase("dining", "I would like...", "Quisiera...", "kee-see-eh-rah"),
    Phrase("dining", "Delicious!", "¡Delicioso!", "deh-lee-see-oh-soh"),
    Phrase("transportation", "Where is...?", "¿Dónde está...?", "don-deh es-tah"),
    Phrase("transportation", "How much is it?", "¿Cuánto cuesta?", "kwan-toh kwes-tah"),
    Phrase("emergency", "Help!", "¡Ayuda!", "ah-yoo-dah"),
    Phrase("emergency", "I need a doctor", "Necesito un médico", "neh-seh-see-toh oon meh-dee-koh")]

  /** Phrase data exists for French and Spanish only. */
  const PhrasesData: map<string, seq<Phrase>> := map["fr" := French, "es" := Spanish]

  /** The phrases of a language code, the empty list for a code without data. */
  function PhrasesFor(code: string): (phrases: seq<Phrase>)
    ensures code == "fr" ==> phrases == French
    ensures code == "es" ==> phrases == Spanish
    ensures code != "fr" && code != "es" ==> phrases == []
  {
    if code in PhrasesData then PhrasesData[code] else []
  }

  /** The filter's callback: the category test first, then the search over English text and translation. */
  predicate PhraseShown(phrase: Phrase, activeCategory: string, searchQuery: string)
  {
    if activeCategory != AllCategories && phrase.category != activeCategory then false
    else if searchQuery != "" then
      var query := ToLower(searchQuery);
      Includes(ToLower(phrase.english), query) || Includes(ToLower(phrase.translation), query)
    else true
  }

  function FilteredPhrases(phrases: seq<Phrase>, activeCategory: string, searchQuery: string): (shown: seq<Phrase>)
    ensures IsSubsequence(shown, phrases)
  {
    Filter((p: Phrase) => PhraseShown(p, activeCategory, searchQuery), phrases)
  }

  /**
    A phrase is shown exactly when the tab is "all" or its category, and, for a non-empty
    query, the lower-cased query occurs in its lower-cased English text or translation;
    the pronunciation is never searched.
   */
  lemma FilteredPhrasesMembership(phrases: seq<Phrase>, activeCategory: string, searchQuery: string, p: Phrase)
    requires p in phrases
    ensures p in FilteredPhrases(phrases, activeCategory, searchQuery) <==>
              (activeCategory == AllCategories || p.category == activeCategory)
              && (searchQuery == "" ||
                    Includes(ToLower(p.english), ToLower(searchQuery))
                    || Includes(ToLower(p.translation), ToLower(searchQuery)))
  {
    FilterMembership((p: Phrase) => PhraseShown(p, activeCategory, searchQuery), phrases, p);
  }

  /** Two phrases that differ only in pronunciation are both shown or both hidden. */
  lemma PronunciationNotSearched(phrase: Phrase, pronunciation: string, activeCategory: string, searchQuery: string)
    ensures PhraseShown(phrase.(pronunciation := pronunciation), activeCategory, searchQuery)
            == PhraseShown(phrase, activeCategory, searchQuery)
  {
  }

  function CategoryNames(phrases: seq<Phrase>): (names: seq<string>)
    ensures |names| == |phrases|
    ensures forall k :: 0 <= k < |phrases| ==> names[k] == phrases[k].category
  {
    seq(|phrases|, k requires 0 <= k < |phrases| => phrases[k].category)
  }

  /** The category tabs: "all", then each category of the phrases once. */
  function Categories(phrases: seq<Phrase>): (tabs: seq<string>)
    ensures |tabs| >= 1 && tabs[0] == AllCategories
    ensures forall k :: 0 <= k < |phrases| ==> phrases[k].category in tabs
  {
    [AllCategories] + Deduplicated(CategoryNames(phrases))
  }

  /**
    The tabs start with "all"; every phrase's category has a tab, every later tab is some
    phrase's category, no category appears twice, and the categories come in the order
    in which they first occur among the phrases.
   */
  lemma CategoriesEffect(phrases: seq<Phrase>)
    ensures Categories(phrases)[0] == AllCategories
    ensures forall k :: 0 <= k < |phrases| ==> phrases[k].category in Categories(phrases)[1..]
    ensures forall i :: 1 <= i < |Categories(phrases)| ==>
              exists k :: 0 <= k < |phrases| && phrases[k].category == Categories(phrases)[i]
    ensures forall i, j :: 1 <= i < j < |Categories(phrases)| ==> Categories(phrases)[i] != Categories(phrases)[j]
    ensures forall i, j :: 1 <= i < j < |Categories(phrases)| ==>
              IndexOf(CategoryNames(phrases), Categories(phrases)[i]) < IndexOf(CategoryNames(phrases), Categories(phrases)[j])
  {
    var names := CategoryNames(phrases);
    var tabs := Categories(phrases);
    assert tabs[1..] == Deduplicated(names);
    forall i | 1 <= i < |tabs|
      ensures exists k :: 0 <= k < |phrases| && phrases[k].category == tabs[i]
    {
      assert tabs[i] == Deduplicated(names)[i - 1];
      var k := IndexOf(names, tabs[i]);
      assert phrases[k].category == tabs[i];
    }
  }
}
