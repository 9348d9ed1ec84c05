/**
 * The two shortcodes of inc/shortcodes.php, up to the point where they hand
 * over to WordPress: the `WP_Query` arguments `[weave_starter_list]` builds
 * from its attributes, and the key resolution, guards and concatenation of
 * `[weave_starter_field]`.
 */
module Shortcodes {
  import opened Wrappers
  import opened Php

  /** `shortcode_atts`: a known attribute takes the given value, or else its default. */
  function Att(given: map<string, string>, name: string, default: Value): (v: Value)
    ensures name in given ==> v == Str(given[name])
    ensures name !in given ==> v == default
  {
    if name in given then Str(given[name]) else default
  }

  /** A string attribute whose default is a string. */
  function StrAtt(given: map<string, string>, name: string, default: string): (v: string)
    ensures name in given ==> v == given[name]
    ensures name !in given ==> v == default
  {
    if name in given then given[name] else default
  }

  // ---------------------------------------------------------------------
  // [weave_starter_list]

  datatype TaxQuery = TaxQuery(taxonomy: string, field: string, terms: string)

  /** The keys of `$query_args` that are set (a missing optional key is `None`). */
  datatype QueryArgs = QueryArgs(
    postType: string,
    postsPerPage: nat,
    postStatus: string,
    metaKey: Option<string>,
    orderby: string,
    order: string,
    taxQuery: Option<seq<TaxQuery>>,
    postNotIn: Option<seq<nat>>)

  /** The sort direction: the upper-cased attribute when it is ASC or DESC, else ASC. */
  function NormalizeOrder(order: string): (r: string)
    ensures r == "ASC" || r == "DESC"
    ensures r == "DESC" <==> ToUpper(order) == "DESC"
  {
    var upper := ToUpper(order);
    if upper == "ASC" || upper == "DESC" then upper else "ASC"
  }

  /** `array_map('absint', $pieces)`. */
  function AbsintAll(h: Helpers, pieces: seq<string>): (ids: seq<nat>)
    ensures |ids| == |pieces| && forall i :: 0 <= i < |pieces| ==> ids[i] == h.absint(pieces[i])
  {
    seq(|pieces|, i requires 0 <= i < |pieces| => h.absint(pieces[i]))
  }

  /** The `$query_args` of `render_list_shortcode`, built as the source builds them. */
  method BuildListQuery(given: map<string, string>, h: Helpers) returns (args: QueryArgs)
    ensures args.postType == "starter_item" && args.postStatus == "publish"
    ensures args.postsPerPage == AbsInt(h, Att(given, "limit", Int(12)))
    ensures var orderby := StrAtt(given, "orderby", "display_order");
      if orderby == "display_order" then args.metaKey == Some("_weave_starter_display_order") && args.orderby == "meta_value_num"
      else if orderby == "price" then args.metaKey == Some("_weave_starter_price") && args.orderby == "meta_value_num"
      else args.metaKey == None && args.orderby == h.sanitizeTextField(orderby)
    ensures args.order == NormalizeOrder(StrAtt(given, "order", "ASC"))
    ensures var kind := StrAtt(given, "type", "");
      if EmptyString(kind) then args.taxQuery == None
      else args.taxQuery == Some([TaxQuery("starter-item-category", "slug", h.sanitizeTextField(kind))])
    ensures var exclude := StrAtt(given, "exclude", "");
      if EmptyString(exclude) then args.postNotIn == None
      else (args.postNotIn.Some?
        && |args.postNotIn.value| == |Explode(',', exclude)|
        && forall i :: 0 <= i < |args.postNotIn.value| ==> args.postNotIn.value[i] == h.absint(Explode(',', exclude)[i]))
  {
    var kind := StrAtt(given, "type", "");
    var limit := Att(given, "limit", Int(12));
    var orderby := StrAtt(given, "orderby", "display_order");
    var order := StrAtt(given, "order", "ASC");
    var exclude := StrAtt(given, "exclude", "");

    args := QueryArgs("starter_item", AbsInt(h, limit), "publish", None, "", "", None, None);

    if orderby == "display_order" {
      args := args.(metaKey := Some("_weave_starter_display_order"), orderby := "meta_value_num");
    } else if orderby == "price" {
      args := args.(metaKey := Some("_weave_starter_price"), orderby := "meta_value_num");
    } else {
      args := args.(orderby := h.sanitizeTextField(orderby));
    }

    var upper := ToUpper(order);
    args := args.(order := if upper == "ASC" || upper == "DESC" then upper else "ASC");

    if !EmptyString(kind) {
      args := args.(taxQuery := Some([TaxQuery("starter-item-category", "slug", h.sanitizeTextField(kind))]));
    }

    if !EmptyString(exclude) {
      args := args.(postNotIn := Some(AbsintAll(h, Explode(',', exclude))));
    }
  }

  /** Upper-casing an already upper-case direction changes nothing. */
  lemma OrderExamples()
    ensures NormalizeOrder("desc") == "DESC"
    ensures NormalizeOrder("Asc") == "ASC"
    ensures NormalizeOrder("random") == "ASC"
    ensures NormalizeOrder("") == "ASC"
  {
    assert ToUpper("desc") == "DESC" by {
      assert ToUpper("desc")[0] == 'D' && ToUpper("desc")[1] == 'E' && ToUpper("desc")[2] == 'S' && ToUpper("desc")[3] == 'C';
    }
    assert ToUpper("random")[0] == 'R';
  }

  /** ASC or DESC in any letter case is kept, in upper case. */
  lemma {:induction false} NormalizeOrderKeepsDirection(order: string)
    ensures ToUpper(order) == "ASC" ==> NormalizeOrder(order) == "ASC"
    ensures ToUpper(order) == "DESC" ==> NormalizeOrder(order) == "DESC"
    ensures ToUpper(order) != "ASC" && ToUpper(order) != "DESC" ==> NormalizeOrder(order) == "ASC"
  {
  }

  /** One excluded id per comma-separated piece of `exclude`: one more than its commas. */
  lemma {:induction false} ExcludeCount(h: Helpers, exclude: string)
    ensures |AbsintAll(h, Explode(',', exclude))| == Occurrences(',', exclude) + 1
  {
    ExplodeLength(',', exclude);
  }

  // ---------------------------------------------------------------------
  // [weave_starter_field]

  const MetaPrefix: string := "_weave_starter_"

  /** The meta key the field shortcode reads: the field verbatim when it carries the prefix, else prefixed and sanitised. */
  function MetaKey(h: Helpers, field: string): (key: string)
    ensures StartsWith(key, MetaPrefix)
    ensures StartsWith(field, MetaPrefix) ==> key == field
    ensures !StartsWith(field, MetaPrefix) ==> key == MetaPrefix + h.sanitizeKey(field)
  {
    if StartsWith(field, MetaPrefix) then field
    else
      assert (MetaPrefix + h.sanitizeKey(field))[..|MetaPrefix|] == MetaPrefix;
      MetaPrefix + h.sanitizeKey(field)
  }

  /** Resolving a key that is already resolved changes nothing. */
  lemma MetaKeyIdempotent(h: Helpers, field: string)
    ensures MetaKey(h, MetaKey(h, field)) == MetaKey(h, field)
  {
  }

  /** The post whose meta is read: the `id` attribute when it is non-zero, else the current post (0 stands for no post). */
  function FieldPostId(given: map<string, string>, currentPost: nat, h: Helpers): (id: nat)
    ensures "id" !in given ==> id == currentPost
    ensures "id" in given && h.absint(given["id"]) != 0 ==> id == h.absint(given["id"])
  {
    var explicit := AbsInt(h, Att(given, "id", Int(0)));
    if explicit != 0 then explicit else currentPost
  }

  /** `'' === $value || false === $value`. */
  predicate NothingToShow(v: Value) {
    v == Str("") || v == Bool(false)
  }

  /**
   * `render_field_shortcode`: `meta(post, key)` is `get_post_meta($post, $key, true)`,
   * `currentPost` is `get_the_ID()` with 0 for false.
   */
  function RenderField(given: map<string, string>, currentPost: nat, meta: (nat, string) -> Value, h: Helpers): (html: string)
    ensures EmptyString(StrAtt(given, "field", "")) ==> html == ""
    ensures FieldPostId(given, currentPost, h) == 0 ==> html == ""
    ensures !EmptyString(StrAtt(given, "field", "")) && FieldPostId(given, currentPost, h) != 0 ==>
      var v := meta(FieldPostId(given, currentPost, h), MetaKey(h, StrAtt(given, "field", "")));
      html == if NothingToShow(v) then ""
              else h.ksesPost(StrAtt(given, "before", "")) + h.escHtml(ToPhpString(v)) + h.ksesPost(StrAtt(given, "after", ""))
  {
    var field := StrAtt(given, "field", "");
    if EmptyString(field) then ""
    else
      var post := FieldPostId(given, currentPost, h);
      if post == 0 then ""
      else
        var value := meta(post, MetaKey(h, field));
        if NothingToShow(value) then ""
        else h.ksesPost(StrAtt(given, "before", "")) + h.escHtml(ToPhpString(value)) + h.ksesPost(StrAtt(given, "after", ""))
  }

  /** A field shortcode with no field attribute renders nothing, whatever the post. */
  lemma NoFieldRendersNothing(currentPost: nat, meta: (nat, string) -> Value, h: Helpers, given: map<string, string>)
    requires "field" !in given
    ensures RenderField(given, currentPost, meta, h) == ""
  {
  }

  /** The escaped value sits between the filtered `before` and `after`. */
  lemma {:induction false} RenderedFieldIsWrapped(given: map<string, string>, currentPost: nat, meta: (nat, string) -> Value, h: Helpers)
    requires RenderField(given, currentPost, meta, h) != ""
    ensures exists v :: (!NothingToShow(v)
      && RenderField(given, currentPost, meta, h) == h.ksesPost(StrAtt(given, "before", "")) + h.escHtml(ToPhpString(v)) + h.ksesPost(StrAtt(given, "after", "")))
  {
    var v := meta(FieldPostId(given, currentPost, h), MetaKey(h, StrAtt(given, "field", "")));
    assert !NothingToShow(v);
  }
}
