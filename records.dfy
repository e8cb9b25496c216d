/** The rows of the store and the records scraped from the listing. */
module Records {
  import opened Dates

  /** One parsed listing entry: the dict `get_entries` stores per key. */
  datatype Record = Record(
    drucksache: string, art: string, urheber: string, url: string, titel: string, datum: Date)

  /** A row of table `dokumente` (the unused `text` and `dl` columns are left out). */
  datatype Document = Document(
    id: string, drucksache: string, titel: string, art: string, urheber: string, url: string,
    datum: Date)

  /** A row of table `dokumenttexte`. */
  datatype DocumentText = DocumentText(id: string, drucksache: string, text: string)

  /** A row of the Mattermost mapping table. */
  datatype Mapping = Mapping(id: string, drucksache: string, mmId: string, mmRootId: string)

  /** The document key: `drucksache + "/" + datum.strftime("%Y/%m/%d")`. */
  function Key(drucksache: string, datum: Date): string {
    drucksache + "/" + FormatPath(datum)
  }

  function KeyOf(r: Record): string {
    Key(r.drucksache, r.datum)
  }

  /** The row `ltgetter` inserts for a merged entry. */
  function NewDocument(id: string, r: Record): Document {
    Document(id, r.drucksache, r.titel, r.art, r.urheber, r.url, r.datum)
  }

  /** Equal keys exactly for equal `(drucksache, datum)` pairs: the date part has a fixed
      width, so a `/` inside the drucksache number cannot make two keys collide. */
  lemma KeyInjective(a: string, da: Date, b: string, db: Date)
    ensures Key(a, da) == Key(b, db) <==> a == b && da == db
  {
    if Key(a, da) == Key(b, db) {
      var k := Key(a, da);
      assert |a| == |b|;
      assert k[..|a|] == a && k[..|b|] == b;
      assert k[|a| + 1..] == FormatPath(da) && Key(b, db)[|b| + 1..] == FormatPath(db);
      FormatPathInjective(da, db);
    }
  }
}
