/** The profile screen (screens/profile.js): three notification switches, a master
    switch and two child switches, and the logout action. The logged-in flag belongs to
    the screen's parent, which hands over its setter; it is a field here. */
module Profile {

  class ProfileScreen {
    var isNotificationsEnabled: bool
    var reminderNotification: bool
    var budgetWarningNotification: bool
    var isLoggedIn: bool
    const username: string
    const password: string

    /** The children are off whenever the master switch is off. It holds initially and
        after every toggle: the child switches are only rendered, so only toggled,
        while the master switch is on. */
    ghost predicate ChildrenFollowMaster()
      reads this
    {
      !isNotificationsEnabled ==> !reminderNotification && !budgetWarningNotification
    }

    /** A profile screen starts with every switch off. */
    constructor (loggedIn: bool)
      ensures !isNotificationsEnabled && !reminderNotification && !budgetWarningNotification
      ensures isLoggedIn == loggedIn
      ensures username == "user@example.com" && password == "password"
      ensures ChildrenFollowMaster()
    {
      isNotificationsEnabled := false;
      reminderNotification := false;
      budgetWarningNotification := false;
      isLoggedIn := loggedIn;
      username := "user@example.com";
      password := "password";
    }

    /** `handleLogout`. */
    method HandleLogout()
      modifies this`isLoggedIn
      ensures !isLoggedIn
    {
      isLoggedIn := false;
    }

    /** `toggleNotifications`: the master switch flips and both children take its new value. */
    method ToggleNotifications()
      modifies this`isNotificationsEnabled, this`reminderNotification, this`budgetWarningNotification
      ensures isNotificationsEnabled == !old(isNotificationsEnabled)
      ensures reminderNotification == isNotificationsEnabled
      ensures budgetWarningNotification == isNotificationsEnabled
      ensures ChildrenFollowMaster()
    {
      var newState := !isNotificationsEnabled;
      if newState {
        reminderNotification := true;
        budgetWarningNotification := true;
      } else {
        reminderNotification := false;
        budgetWarningNotification := false;
      }
      isNotificationsEnabled := newState;
    }

    /** `toggleReminderNotification`, reachable only while the master switch is on: only
        the reminder switch flips. */
    method ToggleReminderNotification()
      requires isNotificationsEnabled
      modifies this`reminderNotification
      ensures reminderNotification == !old(reminderNotification)
      ensures ChildrenFollowMaster()
    {
      reminderNotification := !reminderNotification;
    }

    /** `toggleBudgetWarningNotification`, reachable only while the master switch is on:
        only the budget-warning switch flips. */
    method ToggleBudgetWarningNotification()
      requires isNotificationsEnabled
      modifies this`budgetWarningNotification
      ensures budgetWarningNotification == !old(budgetWarningNotification)
      ensures ChildrenFollowMaster()
    {
      budgetWarningNotification := !budgetWarningNotification;
    }
  }
}
