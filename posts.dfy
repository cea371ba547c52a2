/** Option, standing for the nullable and optional fields of the listing page. */
module Wrappers {
  datatype Option<+T> = None | Some(value: T)
}

/**
 The projection of a raw content-API document onto the listing page's post
 summary: keep the identifier, the first publication date and the title,
 subtitle and author of its data; drop everything else.
 */
module Posts {
  import opened Wrappers

  /** The `data` part of a post summary. */
  datatype PostData = PostData(title: string, subtitle: string, author: string)

  /** A post summary as the listing page holds it; `uid` is optional, the date nullable. */
  datatype Post = Post(uid: Option<string>, firstPublicationDate: Option<string>, data: PostData)

  /** The `data` part of a raw document: the three fields the listing uses and any others. */
  datatype RawData = RawData(title: string, subtitle: string, author: string, otherData: map<string, string>)

  /** A raw document as the content API returns it, with fields the listing does not use. */
  datatype RawPost = RawPost(
    uid: Option<string>,
    firstPublicationDate: Option<string>,
    data: RawData,
    otherFields: map<string, string>)

  /** The projection written out at both call sites of the listing page. */
  function Adapt(p: RawPost): (r: Post)
    ensures r.uid == p.uid && r.firstPublicationDate == p.firstPublicationDate
    ensures r.data.title == p.data.title && r.data.subtitle == p.data.subtitle && r.data.author == p.data.author
  {
    Post(p.uid, p.firstPublicationDate, PostData(p.data.title, p.data.subtitle, p.data.author))
  }

  /** Two raw documents agree on every field the projection keeps. */
  predicate SameSummaryFields(a: RawPost, b: RawPost) {
    a.uid == b.uid && a.firstPublicationDate == b.firstPublicationDate &&
    a.data.title == b.data.title && a.data.subtitle == b.data.subtitle && a.data.author == b.data.author
  }

  /** The projection depends on the five kept fields and on nothing else. */
  lemma AdaptDropsOtherFields(a: RawPost, b: RawPost)
    ensures Adapt(a) == Adapt(b) <==> SameSummaryFields(a, b)
  {
  }

  /** A post summary read back as a document that carries no further fields. */
  function AsRaw(p: Post): RawPost {
    RawPost(p.uid, p.firstPublicationDate, RawData(p.data.title, p.data.subtitle, p.data.author, map[]), map[])
  }

  /** Adapting an already-adapted post gives back the same post. */
  lemma AdaptIdempotent()
    ensures forall q: Post {:trigger AsRaw(q)} :: Adapt(AsRaw(q)) == q
  {
  }

  /** `results.map(Adapt)`: one summary per document, in the same order. */
  function AdaptAll(rs: seq<RawPost>): (ps: seq<Post>)
    ensures |ps| == |rs|
  {
    if rs == [] then [] else [Adapt(rs[0])] + AdaptAll(rs[1..])
  }

  /** Element `i` of the mapped list is the projection of document `i`: the order is kept. */
  lemma {:induction false} AdaptAllAt(rs: seq<RawPost>)
    ensures forall i :: 0 <= i < |rs| ==> AdaptAll(rs)[i] == Adapt(rs[i])
  {
    if rs != [] {
      AdaptAllAt(rs[1..]);
      forall i | 0 < i < |rs| ensures AdaptAll(rs)[i] == Adapt(rs[i]) {
        assert AdaptAll(rs)[i] == AdaptAll(rs[1..])[i - 1];
      }
    }
  }

  /** A sequence of summaries read back as documents. */
  function AsRawAll(ps: seq<Post>): (ds: seq<RawPost>)
    ensures |ds| == |ps|
    ensures forall i :: 0 <= i < |ps| ==> ds[i] == AsRaw(ps[i])
  {
    if ps == [] then [] else [AsRaw(ps[0])] + AsRawAll(ps[1..])
  }

  /** Adapting a list of already-adapted posts changes nothing. */
  lemma {:induction false} AdaptAllIdempotent(ps: seq<Post>)
    ensures AdaptAll(AsRawAll(ps)) == ps
  {
    if ps != [] {
      AdaptAllIdempotent(ps[1..]);
      assert AsRawAll(ps)[1..] == AsRawAll(ps[1..]);
    }
  }

  /** The projection of a concatenation is the concatenation of the projections. */
  lemma {:induction false} AdaptAllAppend(xs: seq<RawPost>, ys: seq<RawPost>)
    ensures AdaptAll(xs + ys) == AdaptAll(xs) + AdaptAll(ys)
  {
    if xs == [] {
      assert xs + ys == ys;
    } else {
      assert (xs + ys)[0] == xs[0] && (xs + ys)[1..] == xs[1..] + ys;
      AdaptAllAppend(xs[1..], ys);
      assert AdaptAll(xs + ys) == [Adapt(xs[0])] + (AdaptAll(xs[1..]) + AdaptAll(ys));
    }
  }
}
