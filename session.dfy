/**
 * The session controller of the front end (`src/App.tsx`): authentication,
 * the in-memory copy of passwords and categories, the list filter, and the
 * handlers that make one backend call and change the copy only when that call
 * succeeds. Each backend call is a parameter holding its outcome; a ghost log
 * records the calls issued, in order.
 */
module Session {
  import opened Wrappers
  import opened Text
  import opened Entities
  import opened Seqs

  /** The filter value meaning "every category"; never stored as a password's category by the add dialog. */
  const AllCategories: string := "所有"
  const DefaultPasswordCategory: string := "个人"
  const DefaultCategoryIcon: string := "📁"

  const MismatchError: string := "两次输入的密码不一致"
  const InitFailedError: string := "初始化密码库失败"
  const VerifyFailedError: string := "密码验证失败"
  const AuthFailedPrefix: string := "认证失败，请重试: "
  const LoadFailedError: string := "加载数据失败"
  const SaveFailedError: string := "保存密码失败"
  const DeleteFailedError: string := "删除密码失败"
  const DuplicateNameError: string := "分类名称已存在"
  const AddCategoryFailedError: string := "添加分类失败"
  const EditCategoryFailedError: string := "编辑分类失败"
  const DeleteCategoryFailedError: string := "删除分类失败"

  const PasswordUpdatedAlert: string := "密码已更新"
  const PasswordAddedAlert: string := "密码已添加"
  const PasswordDeletedAlert: string := "密码已删除"
  const CategoryAddedAlert: string := "分类已添加"
  const CategoryUpdatedAlert: string := "分类已更新"
  const CategoryInUseAlert: string := "该分类下还有密码，无法删除"
  const CategoryDeletedAlert: string := "分类已删除"

  /** The add/edit password form (`newPassword`). */
  datatype PasswordForm = PasswordForm(title: string, username: string, password: string, url: string, notes: string, category: string)

  /** The add/edit category form (`newCategory`). */
  datatype CategoryForm = CategoryForm(name: string, icon: string)

  /** A backend command as the front end invokes it. */
  datatype Call =
    | InitializeVault(masterPassword: string)
    | VerifyMasterPassword(masterPassword: string)
    | GetPasswords(masterPassword: string)
    | GetCategories
    | AddPassword(form: PasswordForm, masterPassword: string)
    | UpdatePassword(item: PasswordItem, masterPassword: string)
    | DeletePassword(id: string)
    | AddCategory(category: Category)
    | UpdateCategory(category: Category)
    | DeleteCategory(id: string)

  // ---------------------------------------------------------------- filter

  predicate MatchesCategory(p: PasswordItem, selected: string) {
    selected == AllCategories || p.category == selected
  }

  /** Empty search, or the lower-cased term inside the lower-cased title, username or url. */
  function MatchesSearch(p: PasswordItem, term: string): (r: bool)
    ensures term == [] ==> r
    ensures r <==> term == [] || exists i: nat ::
                      || OccursAt(ToLower(p.title), ToLower(term), i)
                      || OccursAt(ToLower(p.username), ToLower(term), i)
                      || OccursAt(ToLower(p.url), ToLower(term), i)
  {
    var t := ToLower(term);
    term == [] || Contains(ToLower(p.title), t) || Contains(ToLower(p.username), t) || Contains(ToLower(p.url), t)
  }

  function Shown(selected: string, term: string): (r: PasswordItem -> bool)
    ensures forall p :: r(p) ==> selected == AllCategories || p.category == selected
    ensures selected == AllCategories && term == [] ==> forall p :: r(p)
  {
    p => MatchesCategory(p, selected) && MatchesSearch(p, term)
  }

  /** `filteredPasswords`. */
  function FilterPasswords(passwords: seq<PasswordItem>, selected: string, term: string): (r: seq<PasswordItem>)
    ensures |r| <= |passwords|
    ensures forall k :: 0 <= k < |r| ==>
      (selected == AllCategories || r[k].category == selected) && MatchesSearch(r[k], term)
  {
    Filter(passwords, Shown(selected, term))
  }

  /**
   * The filter keeps, in their order, exactly the entries in the selected
   * category (any, for the "all" value) that match the search, each as often
   * as it occurs.
   */
  lemma FilterSelectsInOrder(passwords: seq<PasswordItem>, selected: string, term: string)
    ensures IsSubsequence(FilterPasswords(passwords, selected, term), passwords)
    ensures forall x :: multiset(FilterPasswords(passwords, selected, term))[x] ==
              if MatchesCategory(x, selected) && MatchesSearch(x, term) then multiset(passwords)[x] else 0
  {
    FilterIsSubsequence(passwords, Shown(selected, term));
    FilterCounts(passwords, Shown(selected, term));
  }

  /** With the "all" value and no search text, the whole list is shown in order. */
  lemma FilterAllShowsEverything(passwords: seq<PasswordItem>)
    ensures FilterPasswords(passwords, AllCategories, "") == passwords
  {
    FilterKeepsAll(passwords, Shown(AllCategories, ""));
  }

  /** The search ignores the case of the term (ASCII letters). */
  lemma SearchIgnoresCase(p: PasswordItem, term: string)
    ensures MatchesSearch(p, term) == MatchesSearch(p, ToLower(term))
  {
    ToLowerIdempotent(term);
  }

  // ---------------------------------------------------------------- pure handler pieces

  /** The category the add dialog starts with: "个人" under the "all" filter, else the filter's category. */
  function DefaultCategory(selected: string): (r: string)
    ensures r != AllCategories
    ensures selected != AllCategories ==> r == selected
    ensures selected == AllCategories ==> r == DefaultPasswordCategory
  {
    if selected == AllCategories then DefaultPasswordCategory else selected
  }

  /** `{...currentPassword, ...newPassword}`: the form's fields over the entry being edited. */
  function Merge(current: PasswordItem, form: PasswordForm): (r: PasswordItem)
    ensures r.id == current.id && r.createdAt == current.createdAt && r.updatedAt == current.updatedAt
    ensures r.title == form.title && r.username == form.username && r.password == form.password
    ensures r.url == form.url && r.notes == form.notes && r.category == form.category
  {
    current.(title := form.title, username := form.username, password := form.password,
             url := form.url, notes := form.notes, category := form.category)
  }

  function PasswordIdIs(id: string): PasswordItem -> bool {
    (p: PasswordItem) => p.id == id
  }

  function PasswordIdIsNot(id: string): PasswordItem -> bool {
    (p: PasswordItem) => p.id != id
  }

  function CategoryIdIsNot(id: string): Category -> bool {
    (c: Category) => c.id != id
  }

  /** `categories.some(c => c.name === name)`. */
  predicate NameTaken(categories: seq<Category>, name: string) {
    exists i :: 0 <= i < |categories| && categories[i].name == name
  }

  /** The same check with the category being edited left out. */
  predicate NameTakenByOther(categories: seq<Category>, name: string, id: string) {
    exists i :: 0 <= i < |categories| && categories[i].name == name && categories[i].id != id
  }

  /** `passwords.some(p => p.category === name)`. */
  predicate InUse(passwords: seq<PasswordItem>, name: string) {
    exists i :: 0 <= i < |passwords| && passwords[i].category == name
  }

  /** Removing by id on success drops every entry with that id and keeps the others in order. */
  lemma RemoveByIdKeepsOthers(passwords: seq<PasswordItem>, id: string)
    ensures var r := Filter(passwords, PasswordIdIsNot(id));
      && (forall j :: 0 <= j < |r| ==> r[j].id != id)
      && IsSubsequence(r, passwords)
      && forall x: PasswordItem :: x.id != id ==> multiset(r)[x] == multiset(passwords)[x]
  {
    FilterIsSubsequence(passwords, PasswordIdIsNot(id));
    FilterCounts(passwords, PasswordIdIsNot(id));
  }

  /**
   * The duplicate check compares the trimmed new name but the name is sent as
   * typed, so a second "Work " passes the check beside an existing "Work ".
   */
  lemma TrimmedCheckAdmitsDuplicateName()
    ensures var existing := [Category("6", "Work ", DefaultCategoryIcon)];
            var typed := "Work ";
            Trim(typed) != [] && !NameTaken(existing, Trim(typed)) && existing[0].name == typed
  {
    var typed := "Work ";
    assert LeadingSpace(typed) == 0;
    assert TrailingSpace(typed[0..]) == 1 by {
      assert typed[0..] == typed;
      assert TrailingSpace(typed[..4]) == 0;
    }
    assert Trim(typed) == "Work";
  }

  /** `expandedPasswords` after `togglePasswordExpanded(id)`: a missing flag counts as false. */
  function Toggled(expanded: map<string, bool>, id: string): (r: map<string, bool>)
    ensures id in r && r[id] == !(id in expanded && expanded[id])
    ensures forall k :: k != id ==> (k in r <==> k in expanded) && (k in expanded ==> r[k] == expanded[k])
  {
    expanded[id := !(id in expanded && expanded[id])]
  }

  lemma ToggleTwiceRestores(expanded: map<string, bool>, id: string)
    ensures var twice := Toggled(Toggled(expanded, id), id);
            twice[id] == (id in expanded && expanded[id]) &&
            forall k :: k != id && k in expanded ==> k in twice && twice[k] == expanded[k]
  {
  }

  /** The calls one submit issues: the unlock command, then the two loads if it answered true. */
  function SubmitCalls(isRegistering: bool, masterPassword: string, confirmPassword: string, auth: Result<bool, string>): seq<Call> {
    if isRegistering && masterPassword != confirmPassword then []
    else
      [if isRegistering then InitializeVault(masterPassword) else VerifyMasterPassword(masterPassword)]
      + (if auth == Ok(true) then [GetPasswords(masterPassword), GetCategories] else [])
  }

  /** The error a failed unlock leaves. */
  function UnlockError(isRegistering: bool, auth: Result<bool, string>): string {
    match auth
    case Err(e) => AuthFailedPrefix + e
    case Ok(_) => if isRegistering then InitFailedError else VerifyFailedError
  }

  class VaultSession {
    var isAuthenticated: bool
    var error: string
    var alert: Option<string>
    var isRegistering: bool
    var masterPassword: string
    var confirmPassword: string
    var passwords: seq<PasswordItem>
    var categories: seq<Category>
    var selectedCategory: string
    var searchTerm: string
    var expandedPasswords: map<string, bool>
    var currentPassword: Option<PasswordItem>
    var currentCategory: Option<Category>
    var passwordForm: PasswordForm
    var categoryForm: CategoryForm
    ghost var calls: seq<Call>

    /** The state of a freshly mounted `App`. */
    constructor()
      ensures !isAuthenticated && error == "" && alert == None && !isRegistering
      ensures masterPassword == "" && confirmPassword == ""
      ensures passwords == [] && categories == []
      ensures selectedCategory == AllCategories && searchTerm == "" && expandedPasswords == map[]
      ensures currentPassword == None && currentCategory == None
      ensures passwordForm == PasswordForm("", "", "", "", "", DefaultPasswordCategory)
      ensures categoryForm == CategoryForm("", DefaultCategoryIcon)
      ensures calls == []
    {
      isAuthenticated, error, alert, isRegistering := false, "", None, false;
      masterPassword, confirmPassword := "", "";
      passwords, categories := [], [];
      selectedCategory, searchTerm, expandedPasswords := AllCategories, "", map[];
      currentPassword, currentCategory := None, None;
      passwordForm := PasswordForm("", "", "", "", "", DefaultPasswordCategory);
      categoryForm := CategoryForm("", DefaultCategoryIcon);
      calls := [];
    }

    /** The list on screen. */
    function FilteredPasswords(): (r: seq<PasswordItem>)
      reads this
      ensures IsSubsequence(r, passwords)
      ensures forall x :: multiset(r)[x] ==
                if MatchesCategory(x, selectedCategory) && MatchesSearch(x, searchTerm) then multiset(passwords)[x] else 0
    {
      FilterSelectsInOrder(passwords, selectedCategory, searchTerm);
      FilterPasswords(passwords, selectedCategory, searchTerm)
    }

    /** `loadPasswordsAndCategories`: both lists replaced together, or the load error. */
    method LoadPasswordsAndCategories(loadedPasswords: Result<seq<PasswordItem>, string>,
                                      loadedCategories: Result<seq<Category>, string>)
      modifies this`passwords, this`categories, this`error, this`calls
      ensures calls == old(calls) + [GetPasswords(masterPassword), GetCategories]
      ensures loadedPasswords.Ok? && loadedCategories.Ok? ==>
        passwords == loadedPasswords.value && categories == loadedCategories.value && error == old(error)
      ensures !(loadedPasswords.Ok? && loadedCategories.Ok?) ==>
        passwords == old(passwords) && categories == old(categories) && error == LoadFailedError
    {
      calls := calls + [GetPasswords(masterPassword), GetCategories];
      if loadedPasswords.Ok? && loadedCategories.Ok? {
        passwords := loadedPasswords.value;
        categories := loadedCategories.value;
      } else {
        error := LoadFailedError;
      }
    }

    /** `handleMasterPasswordSubmit`: register or log in, then load on success. */
    method HandleMasterPasswordSubmit(auth: Result<bool, string>, loadedPasswords: Result<seq<PasswordItem>, string>,
                                      loadedCategories: Result<seq<Category>, string>)
      modifies this`isAuthenticated, this`passwords, this`categories, this`error, this`calls
      ensures calls == old(calls) + SubmitCalls(isRegistering, masterPassword, confirmPassword, auth)
      ensures isRegistering && masterPassword != confirmPassword ==>
        error == MismatchError && isAuthenticated == old(isAuthenticated)
        && passwords == old(passwords) && categories == old(categories)
      ensures var unlocked := (!isRegistering || masterPassword == confirmPassword) && auth == Ok(true);
        isAuthenticated == (old(isAuthenticated) || unlocked)
      ensures (!isRegistering || masterPassword == confirmPassword) && auth != Ok(true) ==>
        error == UnlockError(isRegistering, auth) && passwords == old(passwords) && categories == old(categories)
      ensures (!isRegistering || masterPassword == confirmPassword) && auth == Ok(true) ==>
        if loadedPasswords.Ok? && loadedCategories.Ok? then
          error == "" && passwords == loadedPasswords.value && categories == loadedCategories.value
        else
          error == LoadFailedError && passwords == old(passwords) && categories == old(categories)
    {
      error := "";
      if isRegistering {
        if masterPassword != confirmPassword {
          error := MismatchError;
          return;
        }
        calls := calls + [InitializeVault(masterPassword)];
      } else {
        calls := calls + [VerifyMasterPassword(masterPassword)];
      }
      match auth {
        case Err(e) =>
          error := AuthFailedPrefix + e;
        case Ok(true) =>
          isAuthenticated := true;
          LoadPasswordsAndCategories(loadedPasswords, loadedCategories);
        case Ok(false) =>
          error := if isRegistering then InitFailedError else VerifyFailedError;
      }
    }

    /** `openAddDialog`: no entry being edited, an empty form in the default category. */
    method OpenAddDialog()
      modifies this`currentPassword, this`passwordForm
      ensures currentPassword == None
      ensures passwordForm == PasswordForm("", "", "", "", "", DefaultCategory(selectedCategory))
    {
      currentPassword := None;
      passwordForm := PasswordForm("", "", "", "", "", DefaultCategory(selectedCategory));
    }

    /** `savePassword`: update the entry being edited, or add the form as a new one. */
    method SavePassword(outcome: Result<PasswordItem, string>)
      modifies this`passwords, this`error, this`alert, this`calls
      ensures currentPassword.Some? ==>
        calls == old(calls) + [UpdatePassword(Merge(currentPassword.value, passwordForm), masterPassword)]
      ensures currentPassword.None? ==> calls == old(calls) + [AddPassword(passwordForm, masterPassword)]
      ensures outcome.Err? ==> passwords == old(passwords) && error == SaveFailedError && alert == old(alert)
      ensures outcome.Ok? && currentPassword.Some? ==>
        passwords == ReplaceWhere(old(passwords), PasswordIdIs(outcome.value.id), outcome.value)
        && alert == Some(PasswordUpdatedAlert) && error == old(error)
      ensures outcome.Ok? && currentPassword.None? ==>
        passwords == old(passwords) + [outcome.value] && alert == Some(PasswordAddedAlert) && error == old(error)
    {
      if currentPassword.Some? {
        calls := calls + [UpdatePassword(Merge(currentPassword.value, passwordForm), masterPassword)];
        if outcome.Ok? {
          passwords := ReplaceWhere(passwords, PasswordIdIs(outcome.value.id), outcome.value);
        }
      } else {
        calls := calls + [AddPassword(passwordForm, masterPassword)];
        if outcome.Ok? {
          passwords := passwords + [outcome.value];
        }
      }
      if outcome.Ok? {
        alert := Some(if currentPassword.Some? then PasswordUpdatedAlert else PasswordAddedAlert);
      } else {
        error := SaveFailedError;
      }
    }

    /** `deletePassword`: remove the entry being deleted once the backend confirms. */
    method DeletePassword(outcome: Result<bool, string>)
      modifies this`passwords, this`error, this`alert, this`calls
      ensures currentPassword.None? ==>
        calls == old(calls) && passwords == old(passwords) && error == old(error) && alert == old(alert)
      ensures currentPassword.Some? ==> calls == old(calls) + [Call.DeletePassword(currentPassword.value.id)]
      ensures currentPassword.Some? && outcome.Ok? ==>
        passwords == Filter(old(passwords), PasswordIdIsNot(currentPassword.value.id))
        && alert == Some(PasswordDeletedAlert) && error == old(error)
      ensures currentPassword.Some? && outcome.Err? ==>
        passwords == old(passwords) && error == DeleteFailedError && alert == old(alert)
    {
      if currentPassword.None? {
        return;
      }
      var id := currentPassword.value.id;
      calls := calls + [Call.DeletePassword(id)];
      if outcome.Ok? {
        passwords := Filter(passwords, PasswordIdIsNot(id));
        alert := Some(PasswordDeletedAlert);
      } else {
        error := DeleteFailedError;
      }
    }

    /** `addCategory`: blank names do nothing; a taken trimmed name is refused before any call. */
    method AddCategory(outcome: Result<Category, string>)
      modifies this`categories, this`categoryForm, this`error, this`alert, this`calls
      ensures var name := Trim(old(categoryForm).name);
        name == [] ==>
          calls == old(calls) && categories == old(categories) && categoryForm == old(categoryForm)
          && error == old(error) && alert == old(alert)
      ensures var name := Trim(old(categoryForm).name);
        name != [] && NameTaken(old(categories), name) ==>
          calls == old(calls) && categories == old(categories) && categoryForm == old(categoryForm)
          && error == DuplicateNameError && alert == old(alert)
      ensures var name := Trim(old(categoryForm).name);
        name != [] && !NameTaken(old(categories), name) ==>
          calls == old(calls) + [Call.AddCategory(Category("", old(categoryForm).name, old(categoryForm).icon))]
      ensures var name := Trim(old(categoryForm).name);
        name != [] && !NameTaken(old(categories), name) && outcome.Ok? ==>
          categories == old(categories) + [outcome.value] && categoryForm == CategoryForm("", DefaultCategoryIcon)
          && alert == Some(CategoryAddedAlert) && error == old(error)
      ensures var name := Trim(old(categoryForm).name);
        name != [] && !NameTaken(old(categories), name) && outcome.Err? ==>
          categories == old(categories) && categoryForm == old(categoryForm)
          && error == AddCategoryFailedError && alert == old(alert)
    {
      var name := Trim(categoryForm.name);
      if name == [] {
        return;
      }
      if NameTaken(categories, name) {
        error := DuplicateNameError;
        return;
      }
      calls := calls + [Call.AddCategory(Category("", categoryForm.name, categoryForm.icon))];
      if outcome.Ok? {
        categories := categories + [outcome.value];
        categoryForm := CategoryForm("", DefaultCategoryIcon);
        alert := Some(CategoryAddedAlert);
      } else {
        error := AddCategoryFailedError;
      }
    }

    /**
     * `editCategory`: as `addCategory`, with the edited category left out of the
     * name check. Passwords keep the old category name: the rename does not cascade.
     */
    method EditCategory(outcome: Result<Category, string>)
      modifies this`categories, this`currentCategory, this`error, this`alert, this`calls
      ensures passwords == old(passwords)
      ensures old(currentCategory).None? || Trim(categoryForm.name) == [] ==>
        calls == old(calls) && categories == old(categories) && currentCategory == old(currentCategory)
        && error == old(error) && alert == old(alert)
      ensures old(currentCategory).Some? && Trim(categoryForm.name) != [] ==>
        var current := old(currentCategory).value;
        var name := Trim(categoryForm.name);
        if NameTakenByOther(old(categories), name, current.id) then
          calls == old(calls) && categories == old(categories) && currentCategory == old(currentCategory)
          && error == DuplicateNameError && alert == old(alert)
        else
          && calls == old(calls) + [Call.UpdateCategory(Category(current.id, categoryForm.name, categoryForm.icon))]
          && (outcome.Ok? ==>
                categories == ReplaceWhere(old(categories), CategoryIdIs(outcome.value.id), outcome.value)
                && currentCategory == None && alert == Some(CategoryUpdatedAlert) && error == old(error))
          && (outcome.Err? ==>
                categories == old(categories) && currentCategory == old(currentCategory)
                && error == EditCategoryFailedError && alert == old(alert))
    {
      if currentCategory.None? || Trim(categoryForm.name) == [] {
        return;
      }
      var current := currentCategory.value;
      var name := Trim(categoryForm.name);
      if NameTakenByOther(categories, name, current.id) {
        error := DuplicateNameError;
        return;
      }
      calls := calls + [Call.UpdateCategory(Category(current.id, categoryForm.name, categoryForm.icon))];
      if outcome.Ok? {
        categories := ReplaceWhere(categories, CategoryIdIs(outcome.value.id), outcome.value);
        currentCategory := None;
        alert := Some(CategoryUpdatedAlert);
      } else {
        error := EditCategoryFailedError;
      }
    }

    /**
     * `deleteCategory`: refused with an alert while a password names the
     * category; otherwise removed on success, and the filter goes back to "all"
     * if it showed the deleted category.
     */
    method DeleteCategory(outcome: Result<bool, string>)
      modifies this`categories, this`currentCategory, this`selectedCategory, this`error, this`alert, this`calls
      ensures old(currentCategory).None? ==>
        calls == old(calls) && categories == old(categories) && selectedCategory == old(selectedCategory)
        && currentCategory == old(currentCategory) && error == old(error) && alert == old(alert)
      ensures old(currentCategory).Some? && InUse(passwords, old(currentCategory).value.name) ==>
        calls == old(calls) && categories == old(categories) && selectedCategory == old(selectedCategory)
        && currentCategory == old(currentCategory) && error == old(error) && alert == Some(CategoryInUseAlert)
      ensures old(currentCategory).Some? && !InUse(passwords, old(currentCategory).value.name) ==>
        var current := old(currentCategory).value;
        && calls == old(calls) + [Call.DeleteCategory(current.id)]
        && (outcome.Ok? ==>
              categories == Filter(old(categories), CategoryIdIsNot(current.id))
              && selectedCategory == (if old(selectedCategory) == current.name then AllCategories else old(selectedCategory))
              && currentCategory == None && alert == Some(CategoryDeletedAlert) && error == old(error))
        && (outcome.Err? ==>
              categories == old(categories) && selectedCategory == old(selectedCategory)
              && currentCategory == old(currentCategory) && error == DeleteCategoryFailedError && alert == old(alert))
    {
      if currentCategory.None? {
        return;
      }
      var current := currentCategory.value;
      if InUse(passwords, current.name) {
        alert := Some(CategoryInUseAlert);
        return;
      }
      calls := calls + [Call.DeleteCategory(current.id)];
      if outcome.Ok? {
        categories := Filter(categories, CategoryIdIsNot(current.id));
        if selectedCategory == current.name {
          selectedCategory := AllCategories;
        }
        currentCategory := None;
        alert := Some(CategoryDeletedAlert);
      } else {
        error := DeleteCategoryFailedError;
      }
    }

    /** `togglePasswordExpanded`. */
    method TogglePasswordExpanded(id: string)
      modifies this`expandedPasswords
      ensures expandedPasswords == Toggled(old(expandedPasswords), id)
    {
      expandedPasswords := expandedPasswords[id := !(id in expandedPasswords && expandedPasswords[id])];
    }
  }
}
