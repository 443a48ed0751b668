/**
 * The field normalisation a job card applies before it renders a job:
 * providers disagree on the shape of a job, so company and location may be
 * plain values or nested records with a display name, and the apply link
 * may sit under any of three keys.
 */
module JobCard {
  import opened Json

  /** The four fields a card shows. */
  datatype Card = Card(title: Value, company: Value, location: Value, applyUrl: Value)

  /**
   * A company or location field: a nested record gives its display name (the
   * placeholder when it has none), any other value is kept as it is, and a
   * missing field gives the placeholder.
   */
  function DisplayName(job: Job, key: string, placeholder: string): (v: Value)
    ensures key !in job ==> v == Str(placeholder)
    ensures key in job && job[key].Rec? && "display_name" in job[key].fields ==> v == job[key].fields["display_name"]
    ensures key in job && job[key].Rec? && "display_name" !in job[key].fields ==> v == Str(placeholder)
    ensures key in job && !job[key].Rec? ==> v == job[key]
  {
    if Get(job, key).Rec? then GetOr(GetOr(job, key, Rec(map[])).fields, "display_name", Str(placeholder))
    else GetOr(job, key, Str(placeholder))
  }

  /** A field that is text, or a record whose display name is text (or missing), normalises to text. */
  lemma DisplayNameIsText(job: Job, key: string, placeholder: string)
    requires key in job ==> job[key].Str? || (job[key].Rec? && ("display_name" in job[key].fields ==> job[key].fields["display_name"].Str?))
    ensures DisplayName(job, key, placeholder).Str?
  {
  }

  /** A company given as a nested record with display name "Acme" and one given as the string "Acme" both read "Acme". */
  lemma AcmeEitherWay()
    ensures DisplayName(map["company" := Rec(map["display_name" := Str("Acme")])], "company", "Company") == Str("Acme")
    ensures DisplayName(map["company" := Str("Acme")], "company", "Company") == Str("Acme")
  {
  }

  /** The first truthy value, or `default` when none is: a chain of Python `or`s. */
  function FirstTruthy(values: seq<Value>, default: Value): (r: Value)
    ensures (forall k :: 0 <= k < |values| ==> !Truthy(values[k])) ==> r == default
    ensures forall k :: 0 <= k < |values| && Truthy(values[k]) && (forall m :: 0 <= m < k ==> !Truthy(values[m])) ==> r == values[k]
  {
    if values == [] then default
    else if Truthy(values[0]) then values[0]
    else
      var r := FirstTruthy(values[1..], default);
      assert forall k :: 1 <= k < |values| ==> values[1..][k - 1] == values[k];
      r
  }

  /** The keys an apply link may be found under, in order of preference. */
  const UrlKeys: seq<string> := ["redirect_url", "url", "link"]

  /**
   * The apply link: the first truthy value among `redirect_url`, `url` and
   * `link`, or "#" when none is. It is never empty.
   */
  function ApplyUrl(job: Job): (url: Value)
    ensures url == FirstTruthy([Get(job, UrlKeys[0]), Get(job, UrlKeys[1]), Get(job, UrlKeys[2])], Str("#"))
    ensures Truthy(url)
  {
    var redirect, direct, link := Get(job, "redirect_url"), Get(job, "url"), Get(job, "link");
    assert FirstTruthy([link], Str("#")) == Or(link, Str("#")) by {
      assert [link][1..] == [];
    }
    assert FirstTruthy([direct, link], Str("#")) == Or(direct, FirstTruthy([link], Str("#"))) by {
      assert [direct, link][1..] == [link];
    }
    assert FirstTruthy([redirect, direct, link], Str("#")) == Or(redirect, FirstTruthy([direct, link], Str("#"))) by {
      assert [redirect, direct, link][1..] == [direct, link];
    }
    Or(Or(Or(redirect, direct), link), Str("#"))
  }

  /** A job whose apply link sits only under `link` uses it; with no link at all the card points to "#". */
  lemma ApplyUrlFallbacks(link: string)
    requires link != ""
    ensures ApplyUrl(map["link" := Str(link)]) == Str(link)
    ensures ApplyUrl(map["redirect_url" := Str(""), "url" := Null]) == Str("#")
  {
  }

  /** The card for a job: title (placeholder "Job Title"), company, location, apply link. */
  function NormalizeJob(job: Job): (card: Card)
    ensures "title" in job ==> card.title == job["title"]
    ensures "title" !in job ==> card.title == Str("Job Title")
    ensures card.company == DisplayName(job, "company", "Company")
    ensures card.location == DisplayName(job, "location", "Location")
    ensures card.applyUrl == FirstTruthy([Get(job, "redirect_url"), Get(job, "url"), Get(job, "link")], Str("#"))
    ensures Truthy(card.applyUrl)
  {
    Card(GetOr(job, "title", Str("Job Title")), DisplayName(job, "company", "Company"),
         DisplayName(job, "location", "Location"), ApplyUrl(job))
  }
}
