/** What a document says, read off its fields directly; and that the accessors the analyzers use read the
    same. */
module Documents {
  import opened Sequences
  import opened Values

  ghost predicate HasItem(doc: Doc, key: string, item: Value) {
    key in doc && doc[key].List? && item in doc[key].items
  }

  /** The field is a list and holds the text. */
  ghost predicate ListsText(doc: Doc, key: string, text: string) {
    HasItem(doc, key, Str(text))
  }

  /** The field is a list and holds the map. */
  ghost predicate ListsMap(doc: Doc, key: string, fields: Doc) {
    HasItem(doc, key, Map(fields))
  }

  /** The text of the field, empty when there is none. */
  function TextAt(doc: Doc, key: string): string {
    if key in doc && doc[key].Str? then doc[key].text else ""
  }

  function MapAt(doc: Doc, key: string): Option<Doc> {
    if key in doc && doc[key].Map? then Some(doc[key].fields) else None
  }

  predicate HasEntries(doc: Doc, key: string) {
    key in doc && doc[key].List? && doc[key].items != []
  }

  predicate IsTrue(doc: Doc, key: string) {
    key in doc && doc[key] == Bool(true)
  }

  lemma {:induction false} ReadText(doc: Doc, key: string)
    ensures StringField(doc, key) == TextAt(doc, key)
  {
  }

  lemma {:induction false} ReadMap(doc: Doc, key: string)
    ensures SubMap(doc, key) == MapAt(doc, key)
    ensures MapField(doc, key) == match MapAt(doc, key) case Some(m) => m case None => map[]
  {
  }

  lemma {:induction false} ReadFlag(doc: Doc, key: string)
    ensures AsBool(Field(doc, key)) <==> IsTrue(doc, key)
  {
  }

  lemma {:induction false} ReadList(doc: Doc, key: string, item: Value)
    ensures item in ListField(doc, key) <==> HasItem(doc, key, item)
  {
  }

  lemma {:induction false} ReadEntries(doc: Doc, key: string)
    ensures ListField(doc, key) != [] <==> HasEntries(doc, key)
  {
  }

  lemma {:induction false} ReadTexts(doc: Doc, key: string, text: string)
    ensures text in StringItems(Field(doc, key)) <==> ListsText(doc, key, text)
  {
    if key in doc && doc[key].List? {
      InFlatMap(doc[key].items, StringOf, text);
      assert forall v :: text in StringOf(v) <==> v == Str(text);
    }
  }

  lemma {:induction false} ReadMaps(doc: Doc, key: string, fields: Doc)
    ensures fields in MapItems(Field(doc, key)) <==> ListsMap(doc, key, fields)
  {
    if key in doc && doc[key].List? {
      InFlatMap(doc[key].items, MapOf, fields);
      assert forall v :: fields in MapOf(v) <==> v == Map(fields);
    }
  }
}
