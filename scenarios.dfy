/**
 * Concrete uses of a resource type's path configuration, stated as postconditions
 * on freshly defined types and proved from the contracts in module Paths only.
 */
module Scenarios {
  import opened Wrappers
  import opened Substitution
  import opened Paths
  import opened Template

  /** `collection_path` always rewrites the resource path; `resource_path` after it keeps
      its own value. */
  method SetterOrder() returns (derived: Option<string>, reset: Option<string>, kept: Option<string>)
    ensures derived == Some("/users/:id")
    ensures reset == Some("/users/:id")
    ensures kept == Some("/people/:id")
  {
    var user := new TypeConfig(null);
    var ignored := user.CollectionPath(Some("/users"));
    assert "/users" + "/:id" == "/users/:id";
    derived := user.ResourcePath(None);
    ignored := user.ResourcePath(Some("/people/:id"));
    ignored := user.CollectionPath(Some("/users"));
    reset := user.ResourcePath(None);
    ignored := user.ResourcePath(Some("/people/:id"));
    kept := user.ResourcePath(None);
  }

  /** A subclass inherits the collection and resource paths; its prefix is inherited
      from the superclass's collection path, not from its prefix. */
  method Inheritance() returns (collection: Option<string>, resource: Option<string>, prefix: Option<string>)
    ensures collection == Some("/users") && resource == Some("/users/:id")
    ensures prefix == Some("/users")
  {
    var user := new TypeConfig(null);
    var ignored := user.PathPrefix(Some("/sites/:site_id"));
    ignored := user.CollectionPath(Some("/users"));
    assert "/users" + "/:id" == "/users/:id";
    var admin := new TypeConfig(user);
    assert admin.Ancestors == {user};
    collection := admin.CollectionPath(None);
    resource := admin.ResourcePath(None);
    prefix := admin.PathPrefix(None);
  }

  /** A value a subclass has read once is kept when the superclass changes later. */
  method MemoisedInheritance() returns (memoized: Option<string>)
    ensures memoized == Some("/users")
  {
    var user := new TypeConfig(null);
    var ignored := user.CollectionPath(Some("/users"));
    var admin := new TypeConfig(user);
    assert admin.Ancestors == {user};
    ignored := admin.CollectionPath(None);
    ignored := user.CollectionPath(Some("/people"));
    assert admin.collection == Some("/users");
    memoized := admin.CollectionPath(None);
  }

  /** A value a subclass has not read yet follows a change of the superclass. */
  method FollowedInheritance() returns (followed: Option<string>)
    ensures followed == Some("/people")
  {
    var user := new TypeConfig(null);
    var ignored := user.CollectionPath(Some("/users"));
    var guest := new TypeConfig(user);
    assert guest.Ancestors == {user};
    ignored := user.CollectionPath(Some("/people"));
    assert guest.collection == None && user.collection == Some("/people");
    followed := guest.CollectionPath(None);
  }

  /** `/users` joined behind the prefix `/users`. */
  lemma UsersUnderUsers()
    ensures Join("/users", "/users") == "/users/users"
  {
    assert ChompSlashes("/users") == "/users";
  }

  /** `/users/users` has no placeholder to fill. */
  lemma UsersUsersLiteral()
    ensures Substituted("/users/users", map[]) == Expansion(Success("/users/users"), map[])
  {
    var t := "/users/users";
    assert NoColon(t);
    LiteralTemplateUnchanged(t, map[]);
  }

  /** A subclass of a type with collection path `/users` builds `/users/users`: its
      prefix is the superclass's collection path. */
  method SubclassTemplate() returns (built: Result<string, PathError>)
    ensures built == Success("/users/users")
  {
    var user := new TypeConfig(null);
    var ignored := user.CollectionPath(Some("/users"));
    var admin := new TypeConfig(user);
    assert admin.Ancestors == {user};
    assert admin.ResolvedCollection() == Some("/users") && admin.ResolvedPrefix() == Some("/users");
    UsersUnderUsers();
    UsersUsersLiteral();
    assert admin.TemplateFor(map[]) == Some("/users/users");
    var left;
    built, left := admin.BuildRequestPath(None, map[], None);
  }

  /** A build reads the collection path, so a subclass keeps what it read then after
      the superclass changes. */
  method BuildCaches() returns (memoized: Option<string>)
    ensures memoized == Some("/users")
  {
    var user := new TypeConfig(null);
    var ignored := user.CollectionPath(Some("/users"));
    var admin := new TypeConfig(user);
    assert admin.Ancestors == {user};
    assert admin.ResolvedCollection() == Some("/users");
    assert admin.TemplateFor(map[]).Some?;
    var path, left := admin.BuildRequestPath(None, map[], None);
    ignored := user.CollectionPath(Some("/people"));
    assert admin.collection == Some("/users");
    memoized := admin.CollectionPath(None);
  }

  /** A build that addresses one resource reads only the resource path and the prefix, so
      the subclass's unread collection path still follows the superclass afterwards. */
  method FollowedAfterBuild() returns (followed: Option<string>)
    ensures followed == Some("/people")
  {
    var user := new TypeConfig(null);
    var ignored := user.CollectionPath(Some("/users"));
    assert "/users" + "/:id" == "/users/:id";
    var admin := new TypeConfig(user);
    assert admin.Ancestors == {user};
    var one := map["id" := Text("1")];
    assert AddressesOne(one);
    assert user.resource == Some("/users/:id");
    assert admin.ResolvedResource() == Some("/users/:id");
    assert admin.TemplateFor(one).Some?;
    var path, left := admin.BuildRequestPath(None, one, None);
    assert admin.collection == None;
    ignored := user.CollectionPath(Some("/people"));
    followed := admin.CollectionPath(None);
  }

  /** A build that addresses the collection reads no resource path, so the subclass's
      unread resource path still follows the superclass afterwards. */
  method ResourceFollowedAfterBuild() returns (followed: Option<string>)
    ensures followed == Some("/members/:id")
  {
    var user := new TypeConfig(null);
    var ignored := user.CollectionPath(Some("/users"));
    var admin := new TypeConfig(user);
    assert admin.Ancestors == {user};
    assert admin.ResolvedCollection() == Some("/users");
    assert admin.TemplateFor(map[]).Some?;
    var path, left := admin.BuildRequestPath(None, map[], None);
    assert admin.resource == None;
    ignored := user.ResourcePath(Some("/members/:id"));
    followed := admin.ResourcePath(None);
  }

  /** A placeholder with no value under either key fails with its name and the template. */
  method MissingParameter() returns (missing: Result<string, PathError>)
    ensures missing == Failure(PathError("id", "/users/:id"))
  {
    var user := new TypeConfig(null);
    assert "/users/" + ":" + "id" + "" == "/users/:id";
    SinglePlaceholder("/users/", "id", "", map[]);
    var ignored;
    missing, ignored := user.BuildRequestPath(Some("/users/:id"), map[], None);
  }

  /** The placeholder `:_id` is filled from the key `_id`. */
  method UnderscorePlaceholder() returns (escaped: Result<string, PathError>)
    ensures escaped == Success("/users/9")
  {
    var user := new TypeConfig(null);
    var params := map["_id" := Text("9")];
    assert "/users/" + ":" + "_id" + "" == "/users/:_id";
    SinglePlaceholder("/users/", "_id", "", params);
    assert Has("_id", params) && Take("_id", params).value == Some("9");
    assert "/users/" + "9" + "" == "/users/9";
    var ignored;
    escaped, ignored := user.BuildRequestPath(Some("/users/:_id"), params, None);
  }

  /** Without a hook, the caller's hash loses the consumed key and keeps the rest. */
  method ConsumedKeys() returns (left: Params)
    ensures left == map["page" := Text("2")]
  {
    var user := new TypeConfig(null);
    var params := map["id" := Text("1"), "page" := Text("2")];
    assert "/users/" + ":" + "id" + "" == "/users/:id";
    SinglePlaceholder("/users/", "id", "", params);
    assert params - {"id"} == map["page" := Text("2")];
    var p;
    p, left := user.BuildRequestPath(Some("/users/:id"), params, None);
  }

  /** With a hook, the merge makes a copy and the caller's hash is left alone. */
  method CopiedKeys() returns (untouched: Params)
    ensures untouched == map["id" := Text("1"), "page" := Text("2")]
  {
    var user := new TypeConfig(null);
    var params := map["id" := Text("1"), "page" := Text("2")];
    var p;
    p, untouched := user.BuildRequestPath(Some("/users/:id"), params, Some(map[]));
  }

  /** Prefix `/sites/:site_id`, collection path `/users`: the collection is built
      behind the substituted prefix. */
  method PrefixedCollection() returns (path: Result<string, PathError>)
    ensures path == Success("/sites/42/users")
  {
    var user := new TypeConfig(null);
    var ignored := user.PathPrefix(Some("/sites/:site_id"));
    ignored := user.CollectionPath(Some("/users"));
    var params := map["site_id" := Text("42")];
    assert Join("/sites/:site_id", "/users") == "/sites/" + ":" + "site_id" + "/users";
    SinglePlaceholder("/sites/", "site_id", "/users", params);
    assert Has("site_id", params) && Take("site_id", params).value == Some("42");
    assert "/sites/" + "42" + "/users" == "/sites/42/users";
    assert !AddressesOne(params);
    assert user.ResolvedPrefix() == Some("/sites/:site_id") && user.ResolvedCollection() == Some("/users");
    assert user.TemplateFor(params) == Some(Join("/sites/:site_id", "/users"));
    var left;
    path, left := user.BuildRequestPath(None, params, None);
  }

  /** `request_path` takes `id` from the instance data even when the instance hook
      supplies another one. */
  method DataOverridesHook() returns (path: Result<string, PathError>)
    ensures path == Success("/users/3")
  {
    var user := new TypeConfig(null);
    var ignored := user.ResourcePath(Some("/users/:id"));
    var data := map["id" := Text("3")];
    var hook := map["id" := Text("5")];
    assert Merge(Some(hook), data) == data;
    assert "/users/" + ":" + "id" + "" == "/users/:id";
    SinglePlaceholder("/users/", "id", "", data);
    assert Has("id", data) && Take("id", data).value == Some("3");
    assert "/users/" + "3" + "" == "/users/3";
    assert AddressesOne(data) && user.ResolvedPrefix() == None;
    assert user.TemplateFor(data) == Some("/users/:id");
    path := user.RequestPath(data, Some(hook), None);
  }
}
