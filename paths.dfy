/**
 * Request paths of a resource type (lib/her/model/paths.rb): the per-type path
 * configuration with its inheritance and memoisation, the selection of the
 * resource or collection template, the prefix join, the merge of the optional
 * `request_path_parameters` hook, and the instance-level `request_path`.
 */
module Paths {
  import opened Wrappers
  import opened Template
  import opened Substitution

  // ----- File.join of two URL segments -----

  /** `s` is made of separators only. */
  predicate AllSlashes(s: string) {
    forall i :: 0 <= i < |s| ==> s[i] == '/'
  }

  /** Drops every trailing `/`, and nothing else. */
  function ChompSlashes(p: string): (r: string)
    ensures |r| <= |p| && r == p[..|r|]
    ensures |r| > 0 ==> r[|r| - 1] != '/'
    ensures AllSlashes(p[|r|..])
  {
    if |p| > 0 && p[|p| - 1] == '/' then ChompSlashes(p[..|p| - 1]) else p
  }

  /** `File.join(prefix, path)` on a Unix separator: when `path` starts with `/`, the
      trailing separators of `prefix` are dropped; otherwise a `/` is inserted unless
      `prefix` already ends with one. */
  function Join(prefix: string, path: string): string {
    if |path| > 0 && path[0] == '/' then ChompSlashes(prefix) + path
    else if |prefix| > 0 && prefix[|prefix| - 1] == '/' then prefix + path
    else prefix + "/" + path
  }

  /** The join keeps both sides: it starts with the prefix less its trailing separators,
      ends with the whole path, and adds at most one separator of its own. */
  lemma JoinKeepsBoth(prefix: string, path: string)
    ensures ChompSlashes(prefix) <= Join(prefix, path)
    ensures |path| <= |Join(prefix, path)| && Join(prefix, path)[|Join(prefix, path)| - |path|..] == path
    ensures |Join(prefix, path)| <= |prefix| + 1 + |path|
  {
  }

  /** Drops one leading `/`, if there is one. */
  function DropSlash(path: string): string {
    if |path| > 0 && path[0] == '/' then path[1..] else path
  }

  /** When neither side brings a doubled separator to the junction, the join has exactly
      one `/` there: the prefix without its trailing `/`, one `/`, the path without its
      leading `/` (and `ChompSlashes` leaves no `/` at the end). */
  lemma JoinSingleSeparator(prefix: string, path: string)
    requires !(|path| >= 2 && path[0] == '/' && path[1] == '/')
    requires !(|prefix| >= 2 && prefix[|prefix| - 1] == '/' && prefix[|prefix| - 2] == '/')
    ensures Join(prefix, path) == ChompSlashes(prefix) + "/" + DropSlash(path)
    ensures |DropSlash(path)| > 0 ==> DropSlash(path)[0] != '/'
  {
    if |path| > 0 && path[0] == '/' {
      JoinOntoSlash(prefix, path);
    } else if |prefix| > 0 && prefix[|prefix| - 1] == '/' {
      ChompOneSlash(prefix);
    }
  }

  lemma JoinOntoSlash(prefix: string, path: string)
    requires |path| > 0 && path[0] == '/'
    ensures Join(prefix, path) == ChompSlashes(prefix) + "/" + path[1..]
  {
    var c, tail := ChompSlashes(prefix), path[1..];
    assert Join(prefix, path) == c + path;
    assert path == "/" + tail;
    assert c + ("/" + tail) == c + "/" + tail;
  }

  lemma ChompOneSlash(prefix: string)
    requires |prefix| > 0 && prefix[|prefix| - 1] == '/'
    requires !(|prefix| >= 2 && prefix[|prefix| - 2] == '/')
    ensures prefix == ChompSlashes(prefix) + "/"
  {
    var p' := prefix[..|prefix| - 1];
    assert ChompSlashes(p') == p' by {
      assert |p'| > 0 ==> p'[|p'| - 1] == prefix[|prefix| - 2];
    }
    assert prefix == p' + "/";
  }

  /** Outside the conditions of `JoinSingleSeparator`, a doubled separator brought by
      either side survives the join; an empty prefix still contributes a `/`. */
  lemma JoinEdgeCases()
    ensures Join("/sites", "//users") == "/sites//users"
    ensures Join("/sites//", "users") == "/sites//users"
    ensures Join("", "users") == "/users" && Join("", "/users") == "/users"
  {
    assert ChompSlashes("/sites") == "/sites";
    assert ChompSlashes("") == "";
  }

  // ----- template selection and hook merge -----

  /** `parameters.include?(:id) && !parameters[:id].nil?` */
  predicate AddressesOne(params: Params) {
    "id" in params && !params["id"].Nil?
  }

  /** Chooses the resource path for a parameter set that names one resource, the
      collection path otherwise. */
  function Select(params: Params, resource: Option<string>, collection: Option<string>): Option<string> {
    if AddressesOne(params) then resource else collection
  }

  /** The template `build_request_path` works on when it is given no template: the
      selected path, joined behind the prefix when there is one. */
  function RequestTemplate(params: Params, prefix: Option<string>, resource: Option<string>,
                           collection: Option<string>): (r: Option<string>)
    ensures AddressesOne(params) && prefix.None? ==> r == resource
    ensures !AddressesOne(params) && prefix.None? ==> r == collection
    ensures AddressesOne(params) && prefix.Some? ==>
      r == if resource.Some? then Some(Join(prefix.value, resource.value)) else None
    ensures !AddressesOne(params) && prefix.Some? ==>
      r == if collection.Some? then Some(Join(prefix.value, collection.value)) else None
  {
    match Select(params, resource, collection)
    case None => None
    case Some(p) => Some(if prefix.Some? then Join(prefix.value, p) else p)
  }

  /** `hook.merge(params)`: the hook's entries sit underneath, the given ones win. */
  function Merge(hook: Option<Params>, params: Params): (r: Params)
    ensures params.Keys <= r.Keys && forall k :: k in params ==> r[k] == params[k]
    ensures hook.None? ==> r == params
    ensures hook.Some? ==> r.Keys == hook.value.Keys + params.Keys
    ensures hook.Some? ==> forall k :: k in hook.value && k !in params ==> r[k] == hook.value[k]
  {
    if hook.Some? then hook.value + params else params
  }

  // ----- the per-type configuration -----

  /** The class-level state of one resource type: `@her_path_prefix`,
      `@her_collection_path` and `@her_resource_path`, and the superclass when it is
      itself a model with paths. */
  class TypeConfig {
    var prefix: Option<string>
    var collection: Option<string>
    var resource: Option<string>
    const parent: TypeConfig?
    ghost const Ancestors: set<TypeConfig>

    /** The superclass chain is finite and acyclic. */
    ghost predicate Linked()
      decreases Ancestors + {this}
    {
      && this !in Ancestors
      && (parent == null ==> Ancestors == {})
      && (parent != null ==> Ancestors == {parent} + parent.Ancestors && parent.Linked())
    }

    /** The chain of this type and of every superclass is acyclic, and a superclass
        has no ancestor this type does not have. */
    ghost predicate Valid() {
      Linked() && forall n :: n in Ancestors ==> n.Linked() && n.Ancestors <= Ancestors
    }

    lemma {:induction false} LinkedIsValid()
      requires Linked()
      ensures Valid()
      decreases Repr()
    {
      if parent != null {
        parent.LinkedIsValid();
      }
    }

    ghost function Repr(): set<TypeConfig> {
      Ancestors + {this}
    }

    /** A new type, below `parent` when it has one, with nothing configured. */
    constructor (parent: TypeConfig?)
      requires parent != null ==> parent.Valid()
      ensures Valid() && this.parent == parent
      ensures prefix == None && collection == None && resource == None
    {
      this.parent := parent;
      Ancestors := if parent == null then {} else {parent} + parent.Ancestors;
      prefix, collection, resource := None, None, None;
    }

    /** What a read of `collection_path` returns: the own value, else the superclass's. */
    ghost function ResolvedCollection(): Option<string>
      requires Linked()
      reads set n | n in Repr() :: n`collection
      decreases Repr()
    {
      if collection.Some? || parent == null then collection else parent.ResolvedCollection()
    }

    /** What a read of `resource_path` returns: the own value, else the superclass's. */
    ghost function ResolvedResource(): Option<string>
      requires Linked()
      reads set n | n in Repr() :: n`resource
      decreases Repr()
    {
      if resource.Some? || parent == null then resource else parent.ResolvedResource()
    }

    /** What a read of `path_prefix` returns: the own value, else the superclass's
        COLLECTION path (line 29 asks the superclass for `collection_path`). */
    ghost function ResolvedPrefix(): Option<string>
      requires Linked()
      reads this`prefix, set n | n in Ancestors :: n`collection
    {
      if prefix.Some? || parent == null then prefix else parent.ResolvedCollection()
    }

    /** The types whose `@her_collection_path` a read of `collection_path` assigns. */
    ghost function CollectionChain(): set<TypeConfig>
      requires Linked()
      reads set n | n in Repr() :: n`collection
      decreases Repr()
      ensures CollectionChain() <= Repr()
    {
      if collection.Some? || parent == null then {this} else {this} + parent.CollectionChain()
    }

    /** The types whose `@her_resource_path` a read of `resource_path` assigns. */
    ghost function ResourceChain(): set<TypeConfig>
      requires Linked()
      reads set n | n in Repr() :: n`resource
      decreases Repr()
      ensures ResourceChain() <= Repr()
    {
      if resource.Some? || parent == null then {this} else {this} + parent.ResourceChain()
    }

    /** The superclasses whose `@her_collection_path` a read of `path_prefix` assigns. */
    ghost function PrefixChain(): set<TypeConfig>
      requires Linked()
      reads this`prefix, set n | n in Ancestors :: n`collection
      ensures PrefixChain() <= Ancestors
    {
      if prefix.Some? || parent == null then {} else parent.CollectionChain()
    }

    /** Between the two states every field kept its value or went from unset to what it
        resolved to before. */
    twostate predicate Memoized()
      requires Linked()
      reads this
    {
      && (prefix == old(prefix) || (old(prefix).None? && prefix == old(ResolvedPrefix())))
      && (collection == old(collection) || (old(collection).None? && collection == old(ResolvedCollection())))
      && (resource == old(resource) || (old(resource).None? && resource == old(ResolvedResource())))
    }

    /** Between the two states this type resolves every path to the same value. */
    twostate predicate SameResolution()
      requires Linked()
      reads this, Ancestors
    {
      && ResolvedPrefix() == old(ResolvedPrefix())
      && ResolvedCollection() == old(ResolvedCollection())
      && ResolvedResource() == old(ResolvedResource())
    }

    /** A read of `collection_path`: each type on the chain up to the first one with a
        value memoises that value; nothing else changes. */
    method InheritCollection() returns (r: Option<string>)
      requires Valid()
      modifies Repr()`collection
      decreases Repr()
      ensures r == old(ResolvedCollection()) && collection == r
      ensures forall n :: n in Ancestors && n in old(CollectionChain()) ==> n.collection == old(n.ResolvedCollection())
      ensures forall n :: n in Ancestors && n !in old(CollectionChain()) ==> n.collection == old(n.collection)
      ensures Memoized() && SameResolution()
      ensures forall n :: n in Ancestors ==> n.Memoized() && n.SameResolution()
    {
      if collection.None? && parent != null {
        parent.LinkedIsValid();
        var inherited := parent.InheritCollection();
        collection := inherited;
      }
      r := collection;
    }

    /** `collection_path(path=nil)`: memoises the inherited value, then, given a path,
        sets the collection path to it and the resource path to `path + "/:id"`. */
    method CollectionPath(path: Option<string>) returns (r: Option<string>)
      requires Valid()
      modifies Repr()`collection, this`resource
      ensures r == (if path.Some? then path else old(ResolvedCollection()))
      ensures collection == r && prefix == old(prefix)
      ensures resource == (if path.Some? then Some(path.value + "/:id") else old(resource))
      ensures forall n :: n in Ancestors ==> n.prefix == old(n.prefix) && n.resource == old(n.resource)
      ensures forall n :: n in Ancestors && n in old(CollectionChain()) ==> n.collection == old(n.ResolvedCollection())
      ensures forall n :: n in Ancestors && n !in old(CollectionChain()) ==> n.collection == old(n.collection)
      ensures forall n :: n in Ancestors ==> n.Memoized() && n.SameResolution()
      ensures path.None? ==> Memoized() && SameResolution()
    {
      r := InheritCollection();
      if path.Some? {
        resource := Some(path.value + "/:id");
        collection := path;
        r := path;
      }
    }

    /** A read of `resource_path`: each type on the chain up to the first one with a
        value memoises that value; nothing else changes. */
    method InheritResource() returns (r: Option<string>)
      requires Valid()
      modifies Repr()`resource
      decreases Repr()
      ensures r == old(ResolvedResource()) && resource == r
      ensures forall n :: n in Ancestors && n in old(ResourceChain()) ==> n.resource == old(n.ResolvedResource())
      ensures forall n :: n in Ancestors && n !in old(ResourceChain()) ==> n.resource == old(n.resource)
      ensures Memoized() && SameResolution()
      ensures forall n :: n in Ancestors ==> n.Memoized() && n.SameResolution()
    {
      if resource.None? && parent != null {
        parent.LinkedIsValid();
        var inherited := parent.InheritResource();
        resource := inherited;
      }
      r := resource;
    }

    /** `resource_path(path=nil)`: memoises the inherited value, then, given a path,
        sets the resource path to it and nothing else. */
    method ResourcePath(path: Option<string>) returns (r: Option<string>)
      requires Valid()
      modifies Repr()`resource
      ensures r == (if path.Some? then path else old(ResolvedResource()))
      ensures resource == r && prefix == old(prefix) && collection == old(collection)
      ensures forall n :: n in Ancestors ==> n.prefix == old(n.prefix) && n.collection == old(n.collection)
      ensures forall n :: n in Ancestors && n in old(ResourceChain()) ==> n.resource == old(n.ResolvedResource())
      ensures forall n :: n in Ancestors && n !in old(ResourceChain()) ==> n.resource == old(n.resource)
      ensures forall n :: n in Ancestors ==> n.Memoized() && n.SameResolution()
      ensures path.None? ==> Memoized() && SameResolution()
    {
      r := InheritResource();
      if path.Some? {
        resource := path;
        r := path;
      }
    }

    /** `path_prefix(prefix=nil)`: memoises the superclass's collection path as the
        prefix, then, given a prefix, sets the prefix to it and nothing else. */
    method PathPrefix(value: Option<string>) returns (r: Option<string>)
      requires Valid()
      modifies this`prefix, Ancestors`collection
      ensures r == (if value.Some? then value else old(ResolvedPrefix()))
      ensures prefix == r && collection == old(collection) && resource == old(resource)
      ensures forall n :: n in Ancestors ==> n.prefix == old(n.prefix) && n.resource == old(n.resource)
      ensures forall n :: n in old(PrefixChain()) ==> n.collection == old(n.ResolvedCollection())
      ensures forall n :: n in Ancestors && n !in old(PrefixChain()) ==> n.collection == old(n.collection)
      ensures forall n :: n in Ancestors ==> n.Memoized() && n.SameResolution()
      ensures value.None? ==> Memoized() && SameResolution()
    {
      if prefix.None? && parent != null {
        parent.LinkedIsValid();
        var inherited := parent.InheritCollection();
        prefix := inherited;
      }
      if value.Some? {
        prefix := value;
      }
      r := prefix;
    }

    /** What a build with no explicit template caches, between the two states: when
        `params` names one resource, the types on the resource-path chain hold the
        resource path they resolved to; otherwise those on the collection-path chain
        hold the collection path; the superclasses a prefix read consults hold their
        collection path; and this type holds the prefix it resolved to. */
    twostate predicate CachedBy(params: Params)
      requires Valid()
      reads Repr()
    {
      && (AddressesOne(params) ==>
            forall n :: n in old(ResourceChain()) ==> n.resource == old(n.ResolvedResource()))
      && (!AddressesOne(params) ==>
            forall n :: n in old(CollectionChain()) ==> n.collection == old(n.ResolvedCollection()))
      && (forall n :: n in old(PrefixChain()) ==> n.collection == old(n.ResolvedCollection()))
      && prefix == old(ResolvedPrefix())
    }

    /** What a build with no explicit template leaves alone, between the two states: a
        resource path off the chain of a resource read (every one, when `params` names no
        resource), and a collection path on neither the chain of a collection read nor
        the superclasses a prefix read consults. */
    twostate predicate KeptBy(params: Params)
      requires Valid()
      reads Repr()
    {
      && (forall n :: n in Repr() && !(AddressesOne(params) && n in old(ResourceChain())) ==>
            n.resource == old(n.resource))
      && (forall n ::
            (n in Repr() && (AddressesOne(params) || n !in old(CollectionChain())) && n !in old(PrefixChain())) ==>
            n.collection == old(n.collection))
    }

    /** The template a build with no explicit template uses, from the current configuration. */
    ghost function TemplateFor(params: Params): Option<string>
      requires Linked()
      reads Repr()
    {
      RequestTemplate(params, ResolvedPrefix(), ResolvedResource(), ResolvedCollection())
    }

    /** The no-template branch of `build_request_path`: reads the resource path when the
        parameters name one resource and the collection path otherwise, then joins it
        behind the prefix. */
    method DefaultTemplate(params: Params) returns (t: string)
      requires Valid()
      requires TemplateFor(params).Some?
      modifies this`prefix, Repr()`collection, Repr()`resource
      ensures Some(t) == old(TemplateFor(params))
      ensures CachedBy(params) && KeptBy(params)
      ensures Memoized() && SameResolution()
      ensures forall n :: n in Ancestors ==> n.Memoized() && n.SameResolution()
    {
      var selected: Option<string>;
      if AddressesOne(params) {
        selected := ResourcePath(None);
        assert PrefixChain() == old(PrefixChain());
      } else {
        selected := CollectionPath(None);
        if old(collection).Some? || parent == null {
          assert PrefixChain() == old(PrefixChain());
        } else {
          assert old(PrefixChain()) <= old(CollectionChain());
        }
      }
      label Selected:
      t := PrefixTemplate(selected.value);
      forall n | n in old(PrefixChain()) ensures n.collection == old(n.ResolvedCollection()) {
        assert n in Ancestors;
        if n !in old@Selected(PrefixChain()) {
          assert n.collection == old@Selected(n.collection);
        }
      }
    }

    /** `path = File.join(path_prefix, path) if path_prefix`: the prefix is read (memoising
        it) and, when there is one, read again and joined in front of `path`. */
    method PrefixTemplate(path: string) returns (t: string)
      requires Valid()
      modifies this`prefix, Ancestors`collection
      ensures t == if old(ResolvedPrefix()).Some? then Join(old(ResolvedPrefix()).value, path) else path
      ensures prefix == old(ResolvedPrefix())
      ensures forall n :: n in old(PrefixChain()) ==> n.collection == old(n.ResolvedCollection())
      ensures forall n :: n in Ancestors && n !in old(PrefixChain()) ==> n.collection == old(n.collection)
      ensures Memoized() && SameResolution()
      ensures forall n :: n in Ancestors ==> n.Memoized() && n.SameResolution()
    {
      t := path;
      var pre := PathPrefix(None);
      if pre.Some? {
        var pre' := PathPrefix(None);
        t := Join(pre'.value, t);
      }
    }

    /** `build_request_path(path=nil, parameters={})`. With no explicit template the
        resource or collection path is read (memoising it) and joined behind the prefix
        when one is set; the optional class-level `request_path_parameters` hook is merged
        underneath the parameters; then every placeholder is substituted.
        `callerParams` is the caller's hash afterwards: `delete` consumes from it
        in place unless the hook merge made a copy. */
    method BuildRequestPath(template: Option<string>, params: Params, hook: Option<Params>)
      returns (path: Result<string, PathError>, callerParams: Params)
      requires Valid()
      requires template.None? ==> TemplateFor(params).Some?
      modifies this`prefix, Repr()`collection, Repr()`resource
      ensures var t := if template.Some? then template.value else old(TemplateFor(params)).value;
        var x := Substituted(t, Merge(hook, params));
        path == x.path && callerParams == (if hook.Some? then params else x.rest)
      ensures template.Some? ==> unchanged(Repr())
      ensures template.None? ==> CachedBy(params) && KeptBy(params)
      ensures Memoized() && SameResolution()
      ensures forall n :: n in Ancestors ==> n.Memoized() && n.SameResolution()
    {
      var t: string;
      if template.Some? {
        t := template.value;
      } else {
        t := DefaultTemplate(params);
      }
      var merged := Merge(hook, params);
      var rest;
      path, rest := Substitute(t, merged);
      callerParams := if hook.Some? then params else rest;
    }

    /** `request_path` of an instance of this type: the instance's `@data` merged over
        the instance-level `request_path_parameters` hook, built with no explicit
        template. The merge makes a copy, so `@data` itself is never consumed. */
    method RequestPath(data: Params, instanceHook: Option<Params>, hook: Option<Params>)
      returns (path: Result<string, PathError>)
      requires Valid()
      requires TemplateFor(Merge(instanceHook, data)).Some?
      modifies this`prefix, Repr()`collection, Repr()`resource
      ensures var params := Merge(instanceHook, data);
        path == Substituted(old(TemplateFor(params)).value, Merge(hook, params)).path
      ensures CachedBy(Merge(instanceHook, data)) && KeptBy(Merge(instanceHook, data))
      ensures Memoized() && SameResolution()
      ensures forall n :: n in Ancestors ==> n.Memoized() && n.SameResolution()
    {
      var parameters := Merge(instanceHook, data);
      var consumed;
      path, consumed := BuildRequestPath(None, parameters, hook);
    }
  }
}
