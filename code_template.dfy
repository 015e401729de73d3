/** The in-memory task and user store of the generated web server
    (web_template/src/code_template.rs) and the decision of its login handler. */
module CodeTemplate {
  import opened Wrappers

  /** Rust's `u64`. */
  newtype u64 = x: int | 0 <= x < 0x1_0000_0000_0000_0000

  datatype Task = Task(id: u64, name: string, completed: bool)

  datatype User = User(id: u64, username: string, password: string)

  /** The bodies of the login handler's two answers. */
  const LoggedInBody: string := "logged in!"
  const InvalidCredentials: string := "Invalid username or password"

  /** The HTTP answer of the login handler: 200 OK or 400 Bad Request, with a body. */
  datatype LoginResponse = LoginOk(body: string) | LoginBadRequest(body: string)

  /** The login decision on the user found by name: accepted exactly when the passwords
      are equal; an unknown user and a wrong password get the same rejection. */
  function LoginDecision(found: Option<User>, password: string): (resp: LoginResponse)
    ensures resp.LoginOk? <==> found.Some? && found.value.password == password
    ensures resp.LoginOk? ==> resp.body == LoggedInBody
    ensures resp.LoginBadRequest? ==> resp.body == InvalidCredentials
  {
    match found
    case Some(storedUser) =>
      if storedUser.password == password then LoginOk(LoggedInBody)
      else LoginBadRequest(InvalidCredentials)
    case None => LoginBadRequest(InvalidCredentials)
  }

  class Database {
    var tasks: map<u64, Task>
    var users: map<u64, User>

    /** Every entry is stored under its own id, as `insert` and `insert_user` store them. */
    ghost predicate Valid()
      reads this
    {
      && (forall id :: id in tasks ==> tasks[id].id == id)
      && (forall id :: id in users ==> users[id].id == id)
    }

    /** No two stored users share a username. */
    ghost predicate UniqueUsernames()
      reads this
    {
      forall a, b :: a in users && b in users && users[a].username == users[b].username ==> a == b
    }

    /** `new`: both tables empty. */
    constructor ()
      ensures Valid()
      ensures tasks == map[] && users == map[]
    {
      tasks := map[];
      users := map[];
    }

    /** `get`: the task stored under `id`, if any. */
    function Get(id: u64): (r: Option<Task>)
      reads this
      ensures r.Some? <==> id in tasks
      ensures r.Some? ==> r.value == tasks[id]
      ensures Valid() && r.Some? ==> r.value.id == id
    {
      if id in tasks then Some(tasks[id]) else None
    }

    /** `insert`: stores `task` under its id, replacing what was there. */
    method Insert(task: Task)
      requires Valid()
      modifies this
      ensures Valid()
      ensures tasks == old(tasks)[task.id := task] && users == old(users)
      ensures Get(task.id) == Some(task)
      ensures forall id :: id != task.id ==> Get(id) == old(Get(id))
    {
      tasks := tasks[task.id := task];
    }

    /** `update`: the same upsert as `insert`; an absent id is inserted. */
    method Update(task: Task)
      requires Valid()
      modifies this
      ensures Valid()
      ensures tasks == old(tasks)[task.id := task] && users == old(users)
      ensures Get(task.id) == Some(task)
      ensures forall id :: id != task.id ==> Get(id) == old(Get(id))
    {
      tasks := tasks[task.id := task];
    }

    /** `delete`: removes the task stored under `id`; an absent id changes nothing. */
    method Delete(id: u64)
      requires Valid()
      modifies this
      ensures Valid()
      ensures tasks == old(tasks) - {id} && users == old(users)
      ensures Get(id) == None
      ensures forall other :: other != id ==> Get(other) == old(Get(other))
      ensures id !in old(tasks) ==> tasks == old(tasks)
    {
      tasks := tasks - {id};
    }

    /** `insert_user`: stores `user` under its id, replacing what was there. */
    method InsertUser(user: User)
      requires Valid()
      modifies this
      ensures Valid()
      ensures users == old(users)[user.id := user] && tasks == old(tasks)
    {
      users := users[user.id := user];
    }

    /** `get_all`: every stored task exactly once, in an unspecified order. */
    method GetAll() returns (all: seq<Task>)
      requires Valid()
      ensures |all| == |tasks|
      ensures forall i :: 0 <= i < |all| ==> all[i].id in tasks && tasks[all[i].id] == all[i]
      ensures forall i, j :: 0 <= i < j < |all| ==> all[i].id != all[j].id
      ensures forall id :: id in tasks ==> tasks[id] in all
    {
      all := [];
      var rest := tasks.Keys;
      while rest != {}
        invariant rest <= tasks.Keys
        invariant |all| + |rest| == |tasks|
        invariant forall i :: 0 <= i < |all| ==> all[i].id in tasks.Keys - rest && tasks[all[i].id] == all[i]
        invariant forall i, j :: 0 <= i < j < |all| ==> all[i].id != all[j].id
        invariant forall id :: id in tasks.Keys - rest ==> tasks[id] in all
        decreases |rest|
      {
        var id :| id in rest;
        all := all + [tasks[id]];
        rest := rest - {id};
      }
    }

    /** `get_user_by_name`: some stored user with that name, or None when there is none;
        which one, when several share the name, depends on the map's iteration order. */
    method GetUserByName(username: string) returns (r: Option<User>)
      requires Valid()
      ensures r.Some? ==> r.value.username == username && r.value.id in users && users[r.value.id] == r.value
      ensures r.None? <==> forall id :: id in users ==> users[id].username != username
    {
      var rest := users.Keys;
      while rest != {}
        invariant rest <= users.Keys
        invariant forall id :: id in users.Keys - rest ==> users[id].username != username
        decreases |rest|
      {
        var id :| id in rest;
        if users[id].username == username {
          return Some(users[id]);
        }
        rest := rest - {id};
      }
      return None;
    }

    /** The decision of the `login` handler on the submitted name and password. */
    method Login(attempt: User) returns (resp: LoginResponse)
      requires Valid()
      ensures exists found: Option<User> ::
                && (found.Some? ==> found.value.username == attempt.username
                                    && found.value.id in users && users[found.value.id] == found.value)
                && (found.None? <==> forall id :: id in users ==> users[id].username != attempt.username)
                && resp == LoginDecision(found, attempt.password)
      ensures resp.LoginOk? ==> resp.body == LoggedInBody
      ensures resp.LoginOk? ==> exists id :: id in users && users[id].username == attempt.username
                                            && users[id].password == attempt.password
      ensures resp.LoginBadRequest? ==> resp.body == InvalidCredentials
      ensures (forall id :: id in users && users[id].username == attempt.username
                            ==> users[id].password == attempt.password)
              && (exists id :: id in users && users[id].username == attempt.username)
              ==> resp == LoginOk(LoggedInBody)
      ensures (forall id :: id in users ==> users[id].username != attempt.username)
              ==> resp == LoginBadRequest(InvalidCredentials)
      ensures UniqueUsernames()
              ==> (resp.LoginOk? <==> exists id :: id in users && users[id].username == attempt.username
                                                  && users[id].password == attempt.password)
    {
      var found := GetUserByName(attempt.username);
      resp := LoginDecision(found, attempt.password);
    }
  }
}
